/** Runs made of local steps of one clone, followed on that clone alone. */
module LocalRuns {
  import opened Machine
  import opened Conservation

  predicate LegalOn(cfg: Config, k: Clone, c: nat, steps: seq<Step>)
    decreases |steps|
  {
    steps == []
    || (IsLocal(steps[0]) && steps[0].c == c && LocallyEnabled(cfg, k, steps[0])
        && LegalOn(cfg, ApplyLocal(cfg, k, steps[0]), c, steps[1..]))
  }

  function ExecOn(cfg: Config, k: Clone, c: nat, steps: seq<Step>): (k': Clone)
    requires LegalOn(cfg, k, c, steps)
    decreases |steps|
  {
    if steps == [] then k else ExecOn(cfg, ApplyLocal(cfg, k, steps[0]), c, steps[1..])
  }

  function InterruptionsOn(cfg: Config, k: Clone, c: nat, steps: seq<Step>): (n: nat)
    requires LegalOn(cfg, k, c, steps)
    decreases |steps|
  {
    if steps == [] then 0
    else (if steps[0] == FlushDies(c, 0) && Committed(k) then 1 else 0)
         + InterruptionsOn(cfg, ApplyLocal(cfg, k, steps[0]), c, steps[1..])
  }

  predicate ApartOn(cfg: Config, k: Clone, c: nat, steps: seq<Step>)
    requires LegalOn(cfg, k, c, steps)
    decreases |steps|
  {
    steps == [] || (!Collides(k, steps[0]) && ApartOn(cfg, ApplyLocal(cfg, k, steps[0]), c, steps[1..]))
  }

  lemma PutStep(cfg: Config, s: State, c: nat, k: Clone, step: Step)
    requires c in s.clones && IsLocal(step) && step.c == c && LocallyEnabled(cfg, k, step)
    ensures Enabled(cfg, Put(s, c, k), step)
    ensures Apply(cfg, Put(s, c, k), step) == Put(s, c, ApplyLocal(cfg, k, step))
    ensures Interrupts(Put(s, c, k), step, c) <==> step == FlushDies(c, 0) && Committed(k)
  {
    var k' := ApplyLocal(cfg, k, step);
    assert s.clones[c := k][c := k'] == s.clones[c := k'];
  }

  lemma {:induction false} LocalRun(cfg: Config, s: State, c: nat, k: Clone, steps: seq<Step>)
    requires c in s.clones && LegalOn(cfg, k, c, steps)
    ensures Legal(cfg, Put(s, c, k), steps)
    ensures Exec(cfg, Put(s, c, k), steps) == Put(s, c, ExecOn(cfg, k, c, steps))
    ensures Interruptions(cfg, Put(s, c, k), steps, c) == InterruptionsOn(cfg, k, c, steps)
    ensures Apart(cfg, Put(s, c, k), steps, c) <==> ApartOn(cfg, k, c, steps)
    decreases |steps|
  {
    if steps != [] {
      PutStep(cfg, s, c, k, steps[0]);
      LocalRun(cfg, s, c, ApplyLocal(cfg, k, steps[0]), steps[1..]);
    }
  }

  lemma {:induction false} JoinOn(cfg: Config, k: Clone, c: nat, a: seq<Step>, b: seq<Step>)
    requires LegalOn(cfg, k, c, a) && LegalOn(cfg, ExecOn(cfg, k, c, a), c, b)
    ensures LegalOn(cfg, k, c, a + b)
    ensures ExecOn(cfg, k, c, a + b) == ExecOn(cfg, ExecOn(cfg, k, c, a), c, b)
    ensures InterruptionsOn(cfg, k, c, a + b)
            == InterruptionsOn(cfg, k, c, a) + InterruptionsOn(cfg, ExecOn(cfg, k, c, a), c, b)
    ensures ApartOn(cfg, k, c, a + b) <==> ApartOn(cfg, k, c, a) && ApartOn(cfg, ExecOn(cfg, k, c, a), c, b)
    decreases |a|
  {
    if a == [] {
      assert a + b == b;
    } else {
      JoinOn(cfg, ApplyLocal(cfg, k, a[0]), c, a[1..], b);
      assert (a + b)[0] == a[0] && (a + b)[1..] == a[1..] + b;
    }
  }

  lemma One(cfg: Config, k: Clone, c: nat, step: Step, k': Clone)
    requires IsLocal(step) && step.c == c && LocallyEnabled(cfg, k, step) && ApplyLocal(cfg, k, step) == k'
    ensures LegalOn(cfg, k, c, [step]) && ExecOn(cfg, k, c, [step]) == k'
    ensures ApartOn(cfg, k, c, [step]) <==> !Collides(k, step)
    ensures InterruptionsOn(cfg, k, c, [step]) == if step == FlushDies(c, 0) && Committed(k) then 1 else 0
  {
    assert [step][1..] == [];
    assert LegalOn(cfg, k', c, []) && ExecOn(cfg, k', c, []) == k' && InterruptionsOn(cfg, k', c, []) == 0;
    assert ApartOn(cfg, k', c, []);
  }
}
