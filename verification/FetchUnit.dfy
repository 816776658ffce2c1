/** Stages 0 and 1 with their registers, updated in place. */
module FetchUnit {
  import opened Types
  import opened Isa
  import Fetch

  /** A stage's copy of the epochs, {eEpoch, wEpoch}. */
  datatype Epochs = Epochs(e: bool, w: bool)

  function ToggleEpochs(ep: Epochs, who: Flusher): Epochs {
    match who
    case FromExecute => ep.(e := !ep.e)
    case FromWriteBack => ep.(w := !ep.w)
  }

  class Stage01 {
    const isa: Arch

    // stage 0
    var pc: Pc
    var delayedRedirect: Option<Pc>
    var fence: bool
    var epochs0: Epochs

    // words under way from stage 0 to stage 1
    var words: seq<Fetch.Word01>

    // stage 1
    var checkPrev: bool
    var prev: Fetch.Prev
    var epochs1: Epochs

    // history
    var flushes: nat
    ghost var cursor: Fetch.Cursor

    /** The epoch copies of the two stages agree. */
    ghost predicate Valid()
      reads this
    {
      epochs0 == epochs1
    }

    ghost function Cur(): Tag
      reads this
    {
      Tag(epochs0.e, epochs0.w, flushes)
    }

    ghost function Abs(): Fetch.Unit
      reads this
    {
      Fetch.Unit(pc, delayedRedirect, fence, Cur(), words, checkPrev, prev, cursor)
    }

    constructor (isa: Arch, resetpc: Pc)
      ensures Valid() && this.isa == isa && words == [] && !checkPrev && delayedRedirect.None? && pc == resetpc
      ensures Cur() == Tag(false, false, 0) && Abs().cursor == Fetch.Cursor(resetpc, None, false)
    {
      this.isa := isa;
      pc, delayedRedirect, fence := resetpc, None, false;
      epochs0, epochs1, flushes := Epochs(false, false), Epochs(false, false), 0;
      words, checkPrev := [], false;
      prev := Fetch.Prev(0, 0, Fetch.Prediction(0, false, false, false, 0), Tag(false, false, 0));
      cursor := Fetch.Cursor(resetpc, None, false);
    }

    /** rl_gen_next_pc: after a fence the pc is used once more; otherwise the next pc is the delayed
        redirect, the predicted target, or the next word. */
    method GenNextPc(resp: Fetch.Prediction)
      requires Valid()
      modifies this
      ensures Valid() && Abs() == Fetch.GenNextPc(old(Abs()), resp)
    {
      var address := pc - pc % 4;
      var nextpc := Plus4(address);
      var edgecase := resp.hi && !resp.instr16;
      if fence {
        fence := false;
      } else {
        words := words + [Fetch.Word01(address, pc % 4 == 2, resp, Tag(epochs0.e, epochs0.w, flushes))];
        if resp.prediction > 1 && resp.btbhit && !edgecase {
          nextpc := resp.nextpc;
        }
        if delayedRedirect.Some? {
          nextpc := delayedRedirect.value;
          delayedRedirect := None;
        } else if edgecase && resp.prediction > 1 {
          delayedRedirect := Some(resp.nextpc);
        }
        pc := nextpc;
      }
    }

    /** deq_response; a live word also moves the path on. */
    method DeqResponse()
      requires words != []
      modifies this`words, this`cursor
      ensures words == old(words)[1..] && cursor == Fetch.Advance(isa, old(cursor), old(words)[0].resp)
    {
      cursor := Fetch.Advance(isa, cursor, words[0].resp);
      words := words[1..];
    }

    /** A prediction that is not about this parcel says nothing. */
    static method ResetUnless(resp: Fetch.Prediction, keep: bool) returns (r: Fetch.Prediction)
      ensures r == Fetch.KeepIf(resp, keep)
    {
      r := resp;
      if !keep {
        r := r.(btbhit := false, prediction := 1);
      }
    }

    /** The carried parcel is an instruction of its own, or the first half of one. */
    method ProcessCarried() returns (sent: Option<Fetch.Tok>)
      requires Valid() && words != [] && Fetch.HoldsParcel(Abs())
      requires SameEpochs(words[0].tag, Cur())
      modifies this
      ensures Valid() && (Abs(), sent) == Fetch.Process(isa, old(Abs()))
    {
      var cur := Tag(epochs1.e, epochs1.w, flushes);
      var (w, held) := (words[0], prev);
      var resp := ResetUnless(held.resp, held.resp.hi);
      if Is32(held.parcel) {
        DeqResponse();
        if resp.prediction > 1 {
          checkPrev := false;
        }
        prev := Fetch.Prev(w.address, isa.imem(UpperOf(w.address)), w.resp, cur);
        var bits: int := held.parcel + 0x1_0000 * isa.imem(w.address);
        sent := Some(Fetch.Tok(UpperOf(held.pc), bits, false, resp.prediction > 1, resp.nextpc, cur));
      } else {
        checkPrev := false;
        prev := held.(tag := cur);
        sent := Some(Fetch.Tok(UpperOf(held.pc), held.parcel, true, resp.prediction > 1, resp.nextpc, cur));
      }
    }

    /** The path starts in the upper parcel of the word. */
    method ProcessDiscard() returns (sent: Option<Fetch.Tok>)
      requires Valid() && words != [] && !Fetch.HoldsParcel(Abs()) && words[0].discard
      requires SameEpochs(words[0].tag, Cur())
      modifies this
      ensures Valid() && (Abs(), sent) == Fetch.Process(isa, old(Abs()))
    {
      var cur := Tag(epochs1.e, epochs1.w, flushes);
      var w := words[0];
      var upper: Half := isa.imem(UpperOf(w.address));
      var resp := ResetUnless(w.resp, w.resp.hi);
      DeqResponse();
      if Is32(upper) {
        checkPrev := true;
        prev := Fetch.Prev(w.address, upper, w.resp, cur);
        sent := None;
      } else {
        checkPrev := false;
        prev := prev.(tag := cur);
        sent := Some(Fetch.Tok(UpperOf(w.address), upper, true, resp.prediction > 1, resp.nextpc, cur));
      }
    }

    /** An instruction starts in the lower parcel of the word. */
    method ProcessAligned() returns (sent: Option<Fetch.Tok>)
      requires Valid() && words != [] && !Fetch.HoldsParcel(Abs()) && !words[0].discard
      requires SameEpochs(words[0].tag, Cur())
      modifies this
      ensures Valid() && (Abs(), sent) == Fetch.Process(isa, old(Abs()))
    {
      var cur := Tag(epochs1.e, epochs1.w, flushes);
      var w := words[0];
      var lower: int := isa.imem(w.address);
      var upper: int := isa.imem(UpperOf(w.address));
      DeqResponse();
      if Is32(lower) {
        checkPrev := false;
        prev := prev.(tag := cur);
        sent := Some(Fetch.Tok(w.address, lower + 0x1_0000 * upper, false, w.resp.prediction > 1, w.resp.nextpc, cur));
      } else {
        checkPrev := w.resp.hi || w.resp.prediction <= 1;
        prev := Fetch.Prev(w.address, upper, w.resp, cur);
        var resp := ResetUnless(w.resp, !w.resp.hi);
        sent := Some(Fetch.Tok(w.address, lower, true, resp.prediction > 1, resp.nextpc, cur));
      }
    }

    /** process_instruction: the realigner. */
    method ProcessInstruction() returns (sent: Option<Fetch.Tok>)
      requires Valid() && words != []
      modifies this
      ensures Valid() && (Abs(), sent) == Fetch.Process(isa, old(Abs()))
    {
      var w := words[0];
      if Epochs(w.tag.e, w.tag.w) != epochs1 {
        words := words[1..];
        checkPrev := false;
        prev := prev.(tag := Tag(epochs1.e, epochs1.w, flushes));
        sent := None;
      } else if checkPrev && Epochs(prev.tag.e, prev.tag.w) == epochs1 {
        sent := ProcessCarried();
      } else if w.discard {
        sent := ProcessDiscard();
      } else {
        sent := ProcessAligned();
      }
    }

    /** ma_update_eEpoch or ma_update_wEpoch, of both stages */
    method UpdateEpoch(who: Flusher)
      requires Valid()
      modifies this`epochs0, this`epochs1, this`flushes
      ensures Valid() && Abs() == old(Abs()).(cur := Toggle(old(Cur()), who))
            && epochs0 == ToggleEpochs(old(epochs0), who)
    {
      epochs0 := ToggleEpochs(epochs0, who);
      epochs1 := ToggleEpochs(epochs1, who);
      flushes := flushes + 1;
    }

    /** ma_flush */
    method MaFlush(newpc: Pc, isFence: bool)
      requires Valid()
      modifies this`pc, this`delayedRedirect, this`fence, this`cursor
      ensures Valid()
      ensures Abs() == old(Abs()).(pc := newpc, delayed := None, fence := isFence, cursor := Fetch.Cursor(newpc,
            None, false))
    {
      pc, delayedRedirect, fence := newpc, None, isFence;
      cursor := Fetch.Cursor(newpc, None, false);
    }

    /** Both, as a redirect does. */
    method Redirect(who: Flusher, newpc: Pc, isFence: bool)
      requires Valid()
      modifies this
      ensures Valid() && Abs() == Fetch.Flush(old(Abs()), who, newpc, isFence)
            && epochs0 == ToggleEpochs(old(epochs0), who)
    {
      UpdateEpoch(who);
      MaFlush(newpc, isFence);
    }
  }
}
