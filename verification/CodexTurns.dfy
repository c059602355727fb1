/**
 Trimming and appending the turns of one Codex conversation.

 Models trimCodexReasoningReplayItems and appendCodexReasoningReplayTurn of
 CLIProxyAPI/internal/cache/codex_reasoning_replay_cache.go.  An item is what those functions
 read of it: whether it is a turn marker, the marker's id, and its bytes.
 */
module CodexTurns {

  const MAX_TURNS: nat := 256
  const MAX_BYTES: nat := 16 * 1024 * 1024

  datatype Item = Item(marker: bool, id: string, bytes: string)

  type Items = seq<Item>

  function Bytes(items: Items): nat {
    if items == [] then 0 else Bytes(items[..|items| - 1]) + |items[|items| - 1].bytes|
  }

  function Markers(items: Items): nat {
    if items == [] then 0 else Markers(items[..|items| - 1]) + if items[|items| - 1].marker then 1 else 0
  }

  /** Turns of a history: whatever stands first, and every later marker, starts one. */
  function Turns(items: Items): nat {
    1 + if items == [] then 0 else Markers(items[1..])
  }

  predicate Fits(items: Items) {
    Turns(items) <= MAX_TURNS && Bytes(items) <= MAX_BYTES
  }

  /** Where a turn may begin; a history may also be dropped altogether. */
  predicate Aligned(items: Items, p: nat) {
    p <= |items| && (p == 0 || p == |items| || items[p].marker)
  }

  /** The longest suffix of whole turns that fits. */
  ghost predicate LongestFit(items: Items, r: Items) {
    exists p: nat | Aligned(items, p) :: r == items[p..] && Fits(r) && NoEarlierFit(items, p)
  }

  ghost predicate NoEarlierFit(items: Items, p: nat)
    requires p <= |items|
  {
    forall q: nat {:trigger Aligned(items, q)} | q < p && Aligned(items, q) :: !Fits(items[q..])
  }

  /** The start of the second turn, or the end. */
  function SecondStart(items: Items, from: nat): (n: nat)
    requires from <= |items|
    ensures from <= n <= |items|
    ensures forall i | from <= i < n :: !items[i].marker
    ensures n < |items| ==> items[n].marker
    decreases |items| - from
  {
    if from == |items| || items[from].marker then from else SecondStart(items, from + 1)
  }

  /** Turns are dropped from the front until the rest fits. */
  function Trimmed(items: Items): Items {
    if items == [] || Fits(items) then items else Trimmed(items[SecondStart(items, 1)..])
  }

  // ---- sums -----------------------------------------------------------------------

  lemma {:induction false} Sums(a: Items, b: Items)
    ensures Bytes(a + b) == Bytes(a) + Bytes(b) && Markers(a + b) == Markers(a) + Markers(b)
  {
    if b == [] {
      assert a + b == a;
    } else {
      Sums(a, b[..|b| - 1]);
      assert (a + b)[..|a + b| - 1] == a + b[..|b| - 1];
    }
  }

  /** What does not fit does not fit with more behind it either. */
  lemma NeverFitsAgain(a: Items, b: Items)
    requires a != [] && Fits(a + b)
    ensures Fits(a)
  {
    Sums(a, b);
    Sums(a[1..], b);
    assert (a + b)[1..] == a[1..] + b;
  }

  // ---- trimming ---------------------------------------------------------------------

  /** What holds after the first turn was dropped holds of the whole history. */
  lemma AfterDropping(items: Items, p: nat)
    requires items != [] && !Fits(items)
    requires var rest := items[SecondStart(items, 1)..]; Aligned(rest, p) && NoEarlierFit(rest, p)
    ensures var n := SecondStart(items, 1); Aligned(items, n + p) && NoEarlierFit(items, n + p)
    ensures items[SecondStart(items, 1) + p..] == items[SecondStart(items, 1)..][p..]
  {
    var n := SecondStart(items, 1);
    var rest := items[n..];
    forall q: nat | q < n + p && Aligned(items, q) ensures !Fits(items[q..]) {
      if q >= n {
        assert Aligned(rest, q - n) && items[q..] == rest[q - n..];
      } else {
        assert items[0..] == items;
      }
    }
  }

  /** How many items trimming drops. */
  ghost function Dropped(items: Items): nat
    decreases |items|
  {
    if items == [] || Fits(items) then 0
    else SecondStart(items, 1) + Dropped(items[SecondStart(items, 1)..])
  }

  lemma {:induction false} TrimmedFrom(items: Items)
    ensures Aligned(items, Dropped(items)) && NoEarlierFit(items, Dropped(items))
    ensures Trimmed(items) == items[Dropped(items)..] && Fits(Trimmed(items))
    decreases |items|
  {
    if items != [] && !Fits(items) {
      var n := SecondStart(items, 1);
      var rest := items[n..];
      TrimmedFrom(rest);
      AfterDropping(items, Dropped(rest));
      assert Dropped(items) == n + Dropped(rest) && Trimmed(items) == Trimmed(rest);
    } else {
      assert items[0..] == items && Dropped(items) == 0;
    }
  }

  /** Trimming keeps the longest suffix of whole turns within both limits. */
  lemma TrimmedLongest(items: Items)
    ensures LongestFit(items, Trimmed(items))
  {
    TrimmedFrom(items);
  }

  /** There is only one such suffix. */
  lemma LongestFitUnique(items: Items, r: Items, s: Items)
    requires LongestFit(items, r) && LongestFit(items, s)
    ensures r == s
  {
    var p: nat :| Aligned(items, p) && r == items[p..] && Fits(r) && NoEarlierFit(items, p);
    var q: nat :| Aligned(items, q) && s == items[q..] && Fits(s) && NoEarlierFit(items, q);
  }

  /** The loop: count, and drop the first turn while the limits are passed. */
  method Trim(all: Items) returns (items: Items)
    ensures items == Trimmed(all) && LongestFit(all, items)
  {
    items := all;
    TrimmedLongest(all);
    while true
      invariant Trimmed(items) == Trimmed(all)
      decreases |items|
    {
      var starts, total := TurnStarts(items);
      if |starts| <= MAX_TURNS && total <= MAX_BYTES { return items; }
      if |starts| <= 1 {
        assert SecondStart(items, 1) == |items| && items[|items|..] == [];
        return [];
      }
      items := items[starts[1]..];
    }
  }

  /** One pass over the items: where turns start, and how many bytes there are. */
  method TurnStarts(items: Items) returns (starts: seq<nat>, total: nat)
    ensures |starts| == Turns(items) && total == Bytes(items)
    ensures |starts| > 1 ==> items != [] && starts[1] == SecondStart(items, 1) < |items|
    ensures |starts| <= 1 && items != [] ==> SecondStart(items, 1) == |items|
  {
    starts, total := [0], 0;
    for i := 0 to |items|
      invariant total == Bytes(items[..i])
      invariant |starts| == Turns(items[..i])
      invariant |starts| > 1 ==> 1 <= starts[1] < i && items[starts[1]].marker && NoMarker(items, 1, starts[1])
      invariant |starts| == 1 ==> NoMarker(items, 1, i)
    {
      assert items[..i + 1][..i] == items[..i];
      if i > 0 { assert items[..i + 1][1..][..i - 1] == items[..i][1..]; }
      total := total + |items[i].bytes|;
      if i > 0 && items[i].marker { starts := starts + [i]; }
    }
    assert items[..|items|] == items;
  }

  ghost predicate NoMarker(items: Items, from: nat, to: nat)
    requires to <= |items|
  {
    forall j | from <= j < to :: !items[j].marker
  }

  // ---- appending ----------------------------------------------------------------------

  predicate HasTurn(items: Items, id: string) {
    exists i | 0 <= i < |items| :: items[i].marker && items[i].id == id
  }

  function TurnId(turn: Items): string {
    if turn != [] && turn[0].marker then turn[0].id else ""
  }

  /** Adds a finished turn, unless it is already there; a history in the old form is dropped. */
  function Appended(existing: Items, turn: Items): Items {
    var kept := if existing != [] && !existing[0].marker then [] else existing;
    if TurnId(turn) != "" && HasTurn(kept, TurnId(turn)) then Trimmed(kept) else Trimmed(kept + turn)
  }

  method Append(existing: Items, turn: Items) returns (r: Items)
    ensures r == Appended(existing, turn)
  {
    var kept := existing;
    if |kept| > 0 && !kept[0].marker { kept := []; }
    var id := "";
    if |turn| > 0 && turn[0].marker { id := turn[0].id; }
    assert id == TurnId(turn);
    if id != "" {
      var found := FindTurn(kept, id);
      if found {
        r := Trim(kept);
        return;
      }
    }
    r := Trim(kept + turn);
  }

  /** The search for the turn's marker. */
  method FindTurn(items: Items, id: string) returns (found: bool)
    ensures found <==> HasTurn(items, id)
  {
    for i := 0 to |items|
      invariant forall j | 0 <= j < i :: !(items[j].marker && items[j].id == id)
    {
      if items[i].marker && items[i].id == id { return true; }
    }
    return false;
  }

  /** What is read of a turn the callers build: a marker with an id, then its items. */
  ghost predicate OneTurn(turn: Items) {
    turn != [] && turn[0].marker && turn[0].id != "" && NoMarker(turn, 1, |turn|)
  }

  /** Trimming first and appending after loses nothing that trimming once would keep. */
  lemma {:induction false} TrimAppend(history: Items, turn: Items)
    requires turn != [] && turn[0].marker
    ensures Trimmed(Trimmed(history) + turn) == Trimmed(history + turn)
    decreases |history|
  {
    if history != [] && !Fits(history) {
      if Fits(history + turn) { NeverFitsAgain(history, turn); }
      var n := SecondStart(history, 1);
      SecondStartBefore(history, turn, 1);
      assert (history + turn)[n..] == history[n..] + turn;
      TrimAppend(history[n..], turn);
    }
  }

  lemma {:induction false} SecondStartBefore(a: Items, b: Items, from: nat)
    requires from <= |a| && b != [] && b[0].marker
    ensures SecondStart(a + b, from) == SecondStart(a, from)
    decreases |a| - from
  {
    if from < |a| && !a[from].marker { SecondStartBefore(a, b, from + 1); }
  }

  function Concat(turns: seq<Items>): Items {
    if turns == [] then [] else Concat(turns[..|turns| - 1]) + turns[|turns| - 1]
  }

  /** The history after appending the turns one by one. */
  function AppendedAll(turns: seq<Items>): Items {
    if turns == [] then [] else Appended(AppendedAll(turns[..|turns| - 1]), turns[|turns| - 1])
  }

  ghost predicate DistinctTurns(turns: seq<Items>) {
    && (forall i | 0 <= i < |turns| :: OneTurn(turns[i]))
    && (forall i, j | 0 <= i < j < |turns| :: turns[i][0].id != turns[j][0].id)
  }

  /** A trimmed history is a suffix of the whole and starts with a turn. */
  lemma {:induction false} TrimmedIsSuffix(items: Items)
    ensures |Trimmed(items)| <= |items| && Trimmed(items) == items[|items| - |Trimmed(items)|..]
    ensures Trimmed(items) != [] && items[0].marker ==> Trimmed(items)[0].marker
    decreases |items|
  {
    if items != [] && !Fits(items) {
      var n := SecondStart(items, 1);
      var rest, m := items[n..], |Trimmed(items[n..])|;
      TrimmedIsSuffix(rest);
      assert rest[|rest| - m..] == items[|items| - m..];
    } else {
      assert items[0..] == items;
    }
  }

  /** Every id in the concatenation is the id of one of the turns. */
  lemma {:induction false} ConcatIds(turns: seq<Items>, id: string)
    requires DistinctTurns(turns) && HasTurn(Concat(turns), id)
    ensures exists i | 0 <= i < |turns| :: turns[i][0].id == id
  {
    if turns != [] {
      var head, last := turns[..|turns| - 1], turns[|turns| - 1];
      var i :| 0 <= i < |Concat(turns)| && Concat(turns)[i].marker && Concat(turns)[i].id == id;
      if i < |Concat(head)| {
        assert HasTurn(Concat(head), id);
        ConcatIds(head, id);
        var j :| 0 <= j < |head| && head[j][0].id == id;
        assert turns[j][0].id == id;
      } else {
        assert last[i - |Concat(head)|] == Concat(turns)[i];
      }
    }
  }

  lemma {:induction false} ConcatStarts(turns: seq<Items>)
    requires DistinctTurns(turns) && turns != []
    ensures Concat(turns) != [] && Concat(turns)[0].marker
  {
    if |turns| > 1 { ConcatStarts(turns[..|turns| - 1]); }
  }

  lemma SuffixHasTurn(items: Items, p: nat, id: string)
    requires p <= |items| && HasTurn(items[p..], id)
    ensures HasTurn(items, id)
  {
    var i :| 0 <= i < |items| - p && items[p..][i].marker && items[p..][i].id == id;
    assert items[p + i] == items[p..][i];
  }

  /** A turn that is appended last is not there yet. */
  lemma NotYetThere(turns: seq<Items>)
    requires DistinctTurns(turns) && turns != []
    ensures !HasTurn(Trimmed(Concat(turns[..|turns| - 1])), turns[|turns| - 1][0].id)
  {
    var head, id := turns[..|turns| - 1], turns[|turns| - 1][0].id;
    var history := Concat(head);
    if HasTurn(Trimmed(history), id) {
      TrimmedIsSuffix(history);
      SuffixHasTurn(history, |history| - |Trimmed(history)|, id);
      ConcatIds(head, id);
    }
  }

  /** Main result: appending turn by turn with trimming is trimming the whole history once. */
  lemma {:induction false} OnlineIsOffline(turns: seq<Items>)
    requires DistinctTurns(turns)
    ensures AppendedAll(turns) == Trimmed(Concat(turns))
  {
    if turns != [] {
      var head, last := turns[..|turns| - 1], turns[|turns| - 1];
      OnlineIsOffline(head);
      TrimmedIsSuffix(Concat(head));
      if head != [] { ConcatStarts(head); }
      NotYetThere(turns);
      TrimAppend(Concat(head), last);
    }
  }

  // ---- unique and idempotent -------------------------------------------------------------

  ghost predicate UniqueIds(items: Items) {
    forall i, j | 0 <= i < j < |items| && items[i].marker && items[j].marker :: items[i].id != items[j].id
  }

  /** The stored form: it fits, starts with a turn, and no turn stands twice. */
  ghost predicate Tidy(items: Items) {
    Fits(items) && (items != [] ==> items[0].marker) && UniqueIds(items)
  }

  lemma UniqueSuffix(items: Items, p: nat)
    requires UniqueIds(items) && p <= |items|
    ensures UniqueIds(items[p..])
  {
  }

  lemma UniqueAppend(existing: Items, turn: Items)
    requires UniqueIds(existing) && OneTurn(turn) && !HasTurn(existing, turn[0].id)
    ensures UniqueIds(existing + turn)
  {
    var all := existing + turn;
    assert forall k | |existing| <= k < |all| :: all[k] == turn[k - |existing|];
    forall i, j | 0 <= i < j < |all| && all[i].marker && all[j].marker ensures all[i].id != all[j].id {
    }
  }

  lemma TrimmedFits(items: Items)
    ensures Fits(Trimmed(items))
  {
    TrimmedFrom(items);
  }

  /** Appending keeps the stored form: ids stay unique, limits hold. */
  lemma AppendedTidy(existing: Items, turn: Items)
    requires Tidy(existing) && OneTurn(turn)
    ensures Tidy(Appended(existing, turn))
  {
    if !HasTurn(existing, TurnId(turn)) {
      var all := existing + turn;
      TrimmedIsSuffix(all);
      TrimmedFits(all);
      UniqueAppend(existing, turn);
      UniqueSuffix(all, |all| - |Trimmed(all)|);
    }
  }

  lemma StaysAfter(items: Items, p: nat, k: nat)
    requires p <= k < |items| && items[k].marker
    ensures HasTurn(items[p..], items[k].id)
  {
    assert items[p..][k - p] == items[k];
  }

  /** The turn appended last survives the trimming if it fits by itself. */
  lemma LastTurnStays(kept: Items, turn: Items)
    requires OneTurn(turn) && Fits(turn)
    ensures HasTurn(Trimmed(kept + turn), turn[0].id)
  {
    var all := kept + turn;
    TrimmedLongest(all);
    var p: nat :| Aligned(all, p) && Trimmed(all) == all[p..] && NoEarlierFit(all, p);
    assert all[|kept|..] == turn && all[|kept|] == turn[0] && Aligned(all, |kept|);
    assert p <= |kept|;
    StaysAfter(all, p, |kept|);
  }

  /** Appending a turn again changes nothing, provided the turn fits at all. */
  lemma AppendTwice(existing: Items, turn: Items)
    requires Fits(existing) && OneTurn(turn) && Fits(turn)
    ensures var once := Appended(existing, turn); Appended(once, turn) == once && HasTurn(once, TurnId(turn))
  {
    var kept := if existing != [] && !existing[0].marker then [] else existing;
    if !HasTurn(kept, TurnId(turn)) {
      LastTurnStays(kept, turn);
      TrimmedIsSuffix(kept + turn);
      TrimmedFits(kept + turn);
    }
  }
}
