/**
 What a replay cache promises, whatever stores it: per conversation a branch of items that
 only grows, is replaced by a branch never used before, or is forgotten.

 The local map (AntigravityCache) and the shared store (AntigravityHome) both refine this.
 */
module ReplayRegister {
  import opened Sequences

  type Key = string
  type Item = string
  type Branch = nat

  datatype Version = Version(branch: Branch, items: seq<Item>, live: bool)

  /** What every conversation holds, and all branches that were ever held. */
  datatype Register = Register(held: map<Key, Version>, used: set<Branch>)

  ghost predicate Sound(r: Register) {
    && (forall k | k in r.held :: r.held[k].branch in r.used)
    && (forall j, k | j in r.held && k in r.held && j != k :: r.held[j].branch != r.held[k].branch)
  }

  /** A branch is continued by appending; a live branch does not become a tombstone. */
  ghost predicate Continues(before: Version, after: Version) {
    before.branch == after.branch && before.items <= after.items && (before.live ==> after.live)
  }

  ghost predicate KeyStep(r: Register, s: Register, k: Key) {
    k in s.held ==>
      || (k in r.held && Continues(r.held[k], s.held[k]))
      || s.held[k].branch !in r.used
  }

  ghost predicate Step(r: Register, s: Register) {
    Sound(s) && r.used <= s.used && forall k :: KeyStep(r, s, k)
  }

  lemma StepReflexive(r: Register)
    requires Sound(r)
    ensures Step(r, r)
  {
  }

  lemma StepTransitive(r: Register, s: Register, t: Register)
    requires Sound(r) && Step(r, s) && Step(s, t)
    ensures Step(r, t)
  {
    forall k ensures KeyStep(r, t, k) {
      assert KeyStep(r, s, k) && KeyStep(s, t, k);
      if k in t.held && k in s.held && k in r.held && Continues(s.held[k], t.held[k]) && Continues(r.held[k], s.held[k]) {
        PrefixTransitive(r.held[k].items, s.held[k].items, t.held[k].items);
      }
    }
  }

  // ---- runs -------------------------------------------------------------------

  ghost predicate Run(run: seq<Register>) {
    run != [] && Sound(run[0]) && forall i | 0 <= i < |run| - 1 :: Step(run[i], run[i + 1])
  }

  ghost predicate On(r: Register, k: Key, b: Branch) {
    k in r.held && r.held[k].branch == b
  }

  lemma RunSteps(run: seq<Register>, i: nat, j: nat)
    requires Run(run) && i <= j < |run|
    ensures Sound(run[i]) && Sound(run[j]) && Step(run[i], run[j])
    decreases j
  {
    if j == i {
      if i > 0 { RunSteps(run, i - 1, i - 1); assert Step(run[i - 1], run[i - 1 + 1]); }
      StepReflexive(run[i]);
    } else {
      RunSteps(run, i, j - 1);
      assert Step(run[j - 1], run[j - 1 + 1]);
      StepTransitive(run[i], run[j - 1], run[j]);
    }
  }

  /** A branch that was used and left is not taken up again. */
  lemma NeverReturns(run: seq<Register>, i: nat, j: nat, k: Key, b: Branch)
    requires Run(run) && i <= j < |run| && b in run[i].used && !On(run[i], k, b)
    ensures !On(run[j], k, b)
  {
    RunSteps(run, i, j);
    assert KeyStep(run[i], run[j], k);
  }

  /**
   Main result: if a conversation is on the same branch at two times, it was on it all the
   while, and what it held first is a prefix of what it holds later.
   */
  lemma BranchChain(run: seq<Register>, i: nat, j: nat, k: Key, b: Branch)
    requires Run(run) && i <= j < |run| && On(run[i], k, b) && On(run[j], k, b)
    ensures run[i].held[k].items <= run[j].held[k].items
    ensures forall m | i <= m <= j :: On(run[m], k, b)
    ensures run[i].held[k].live ==> run[j].held[k].live
  {
    RunSteps(run, i, j);
    assert KeyStep(run[i], run[j], k);
    forall m | i <= m <= j ensures On(run[m], k, b) {
      RunSteps(run, i, m);
      if !On(run[m], k, b) { NeverReturns(run, m, j, k, b); }
    }
  }

  /** No branch ever serves two conversations. */
  lemma BranchBelongsToOneKey(run: seq<Register>, i: nat, j: nat, k: Key, l: Key, b: Branch)
    requires Run(run) && i <= j < |run| && On(run[i], k, b) && On(run[j], l, b)
    ensures k == l
  {
    RunSteps(run, i, j);
    assert KeyStep(run[i], run[j], l);
  }
}
