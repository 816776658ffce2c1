/** The core run from reset: what its registers hold is what the architecture says. */
module Simulation {
  import opened Types
  import opened Isa
  import opened Pipeline
  import opened Refinement
  import Core

  /** Fires the rules one after the other; on every run the core's register file and CSRs are those of the
      one-instruction-at-a-time machine after the instructions the core has completed. */
  method Simulate(c: Core.Riscv, steps: seq<Step>, resetpc: Pc, ghost last: State)
    requires c.Valid() && c.WaitsOk() && Reached(c.isa, c.cfg, c.Abs(), resetpc, steps, last)
    modifies c, c.wait, c.dmem, c.front, c.stage2, c.stage2.registerfile.xrf, c.sboard, c.sboard.entries
    ensures c.Valid() && c.WaitsOk() && c.Abs() == last
    ensures var first := FirstHart(old(c.Abs()), resetpc);
      && Records(c.isa, first, c.hist.log)
      && RunTo(c.isa, first, c.hist.log) == Hart(c.hist.apc, c.stage2.registerfile.Abs(), c.csr)
  {
    PipelineRefinesIsa(c.isa, c.cfg, c.Abs(), resetpc, steps, last);
    for i := 0 to |steps|
      invariant c.Valid() && c.WaitsOk() && Leads(c.isa, c.cfg, c.Abs(), steps[i..], last)
    {
      assert steps[i..][0] == steps[i] && steps[i..][1..] == steps[i + 1..];
      c.Fire(steps[i]);
    }
  }
}
