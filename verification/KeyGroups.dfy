/**
 Provider credentials: the legacy layout is one flat list of entries per provider,
 the v8 layout a list of groups whose shared fields every key of the group inherits.

 Models CLIProxyAPI/internal/config/config_v8.go, expandV8Groups and groupLegacyKeys.
 */
module KeyGroups {
  import opened Wrappers
  import opened YamlTree
  import Decimal

  const OPENAI := "openai-compatibility"

  datatype GroupError =
    | GroupsNotList
    | GroupNotMapping
    | KeysNotList
    | InvalidWeight
    | UnsupportedField
    | KeyNotMapping
    | BaseUrlInKey

  /** The fields a group holds for all of its keys. */
  const GROUP_FIELDS: set<string> :=
    {"base-url", "priority", "prefix", "proxy-url", "headers", "models", "excluded-models",
     "disable-cooling", "request-retry", "request-scoped-errors"}

  /** What the conversions rely on about the field names: a key keeps its weight. */
  predicate FieldNames(shared: set<string>) {
    "base-url" in shared && "name" !in shared && "keys" !in shared && "weight" !in shared
  }

  predicate AuthIndex(field: string) {
    field == "auth_index" || field == "auth-index"
  }

  /** Every "weight" field of every mapping in the list passes the weight check. */
  predicate WeightsOk(keys: seq<Node>, weightOk: Node -> bool) {
    forall i | 0 <= i < |keys| :: WeightOk(keys[i], weightOk)
  }

  predicate WeightOk(key: Node, weightOk: Node -> bool) {
    key.Mapping? ==> forall j | 0 <= j < |key.entries| ::
      key.entries[j].key == "weight" ==> weightOk(key.entries[j].value)
  }

  // ---- v8 groups to legacy entries ---------------------------------------

  /** Copies the inherited fields of a group into an entry. */
  function InheritFields(shared: set<string>, item: Node, group: seq<Entry>): Node
    decreases |group|
  {
    if group == [] then item
    else
      var e := group[0];
      InheritFields(shared, if e.key in shared then Set(item, Split(e.key), e.value) else item, group[1..])
  }

  /** Lays a key's own fields over the inherited ones; null means inherit. */
  function OverrideFields(item: Node, key: seq<Entry>): Node
    decreases |key|
  {
    if key == [] then item
    else
      var e := key[0];
      var next := if AuthIndex(e.key) || IsNull(e.value) then item else Set(item, Split(e.key), e.value);
      OverrideFields(next, key[1..])
  }

  function ExpandKeys(shared: set<string>, group: seq<Entry>, keys: seq<Node>): Result<seq<Node>, GroupError> {
    if keys == [] then Ok([])
    else if !keys[0].Mapping? then Err(KeyNotMapping)
    else if Child(keys[0], "base-url").Some? then Err(BaseUrlInKey)
    else
      match ExpandKeys(shared, group, keys[1..])
      case Err(e) => Err(e)
      case Ok(rest) =>
        Ok([OverrideFields(InheritFields(shared, EMPTY_MAP, group), keys[0].entries)] + rest)
  }

  function WithoutAuthIndex(n: Node): Node {
    Delete(Delete(n, ["auth_index"]), ["auth-index"])
  }

  function CleanKeys(keys: seq<Node>): seq<Node> {
    seq(|keys|, i requires 0 <= i < |keys| => WithoutAuthIndex(keys[i]))
  }

  function ExpandGroup(shared: set<string>, group: Node, provider: string,
                       weightOk: Node -> bool): Result<seq<Node>, GroupError> {
    if !group.Mapping? then Err(GroupNotMapping)
    else
      var keys := Child(group, "keys");
      if keys.None? || !keys.value.Sequence? then Err(KeysNotList)
      else if !WeightsOk(keys.value.items, weightOk) then Err(InvalidWeight)
      else if provider == OPENAI then
        var item := WithoutAuthIndex(Delete(group, ["keys"]));
        Ok([Set(item, ["api-key-entries"], Sequence(CleanKeys(keys.value.items)))])
      else if exists i | 0 <= i < |group.entries| ::
        group.entries[i].key != "name" && group.entries[i].key != "keys" && group.entries[i].key !in shared then
        Err(UnsupportedField)
      else
        ExpandKeys(shared, group.entries, keys.value.items)
  }

  function ExpandAll(shared: set<string>, groups: seq<Node>, provider: string,
                     weightOk: Node -> bool): Result<seq<Node>, GroupError> {
    if groups == [] then Ok([])
    else
      match ExpandGroup(shared, groups[0], provider, weightOk)
      case Err(e) => Err(e)
      case Ok(first) =>
        match ExpandAll(shared, groups[1..], provider, weightOk)
        case Err(e) => Err(e)
        case Ok(rest) => Ok(first + rest)
  }

  function ExpandGroups(shared: set<string>, groups: Node, provider: string, weightOk: Node -> bool): Result<Node,
                        GroupError> {
    if !groups.Sequence? then Err(GroupsNotList)
    else
      match ExpandAll(shared, groups.items, provider, weightOk)
      case Err(e) => Err(e)
      case Ok(items) => Ok(Sequence(items))
  }

  // ---- legacy entries to v8 groups ---------------------------------------

  /** Moves the shared fields of an entry out of the key and into its group. */
  function SplitEntry(shared: set<string>, group: Node, key: Node, fields: seq<Entry>): (Node, Node)
    decreases |fields|
  {
    if fields == [] then (group, key)
    else
      var e := fields[0];
      if e.key in shared then
        SplitEntry(shared, Set(group, Split(e.key), e.value), Delete(key, Split(e.key)), fields[1..])
      else
        SplitEntry(shared, group, key, fields[1..])
  }

  /** The group, named after provider and position, and the key of one legacy entry. */
  function EntryHalves(shared: set<string>, entry: Node, provider: string, index: nat): (Node, Node) {
    var name := Scalar("!!str", provider + "-" + Decimal.Text(index + 1));
    SplitEntry(shared, Mapping([Entry("name", name)]), entry, EntriesOf(entry))
  }

  function GroupEntry(shared: set<string>, entry: Node, provider: string, index: nat): Node {
    if provider == OPENAI then
      var listed := Child(entry, "api-key-entries");
      var keys := if listed.Some? then listed.value else Sequence([]);
      Delete(Set(entry, ["keys"], keys), ["api-key-entries"])
    else
      var (group, key) := EntryHalves(shared, entry, provider, index);
      Set(group, ["keys"], Sequence([key]))
  }

  function GroupAll(shared: set<string>, entries: seq<Node>, provider: string, index: nat): seq<Node> {
    if entries == [] then []
    else [GroupEntry(shared, entries[0], provider, index)] + GroupAll(shared, entries[1..], provider, index + 1)
  }

  /** The children a legacy value is iterated over, keys included for a mapping. */
  function Content(n: Node): seq<Node> {
    match n
    case Scalar(_, _) => []
    case Sequence(items) => items
    case Mapping(es) => Interleave(es)
  }

  function Interleave(es: seq<Entry>): seq<Node> {
    if es == [] then [] else [Scalar("!!str", es[0].key), es[0].value] + Interleave(es[1..])
  }

  function GroupLegacyKeys(shared: set<string>, keys: Node, provider: string): Node {
    Sequence(GroupAll(shared, Content(keys), provider, 0))
  }

  // ---- the two are inverse -----------------------------------------------

  /** A legacy entry the typed decoder accepts: distinct dot-free fields. */
  ghost predicate PlainEntry(n: Node) {
    n.Mapping? && UniqueKeys(n.entries) && forall i | 0 <= i < |n.entries| :: '.' !in n.entries[i].key
  }

  /** The field of a legacy entry that the v8 layout does not carry. */
  predicate Dropped(shared: set<string>, field: string, v: Option<Node>) {
    field !in shared && (AuthIndex(field) || (v.Some? && IsNull(v.value)))
  }

  lemma SetField(n: Node, field: string, v: Node, f: string)
    requires n.Mapping? && '.' !in field
    ensures Set(n, Split(field), v).Mapping?
    ensures Child(Set(n, Split(field), v), f) == if f == field then Some(v) else Child(n, f)
  {
    SplitDotFree(field);
    LookupPut(n.entries, field, v, f);
    assert Set(n, [field], v) == Mapping(Put(n.entries, field, Set(ChildOrNew(n, field), [field][1..], v)));
  }

  lemma DeleteField(n: Node, field: string, f: string)
    requires n.Mapping? && UniqueKeys(n.entries)
    ensures Delete(n, [field]).Mapping? && UniqueKeys(Delete(n, [field]).entries)
    ensures Child(Delete(n, [field]), f) == if f == field then None else Child(n, f)
    ensures forall e | e in Delete(n, [field]).entries :: e in n.entries
    ensures forall e | e in n.entries && e.key != field :: e in Delete(n, [field]).entries
  {
    LookupRemove(n.entries, field, f);
    RemoveSubset(n.entries, field);
    RemoveKeepsOthers(n.entries, field);
    LookupIsMember(n.entries, field);
  }

  lemma RemoveKeepsOthers(es: seq<Entry>, field: string)
    ensures forall e | e in es && e.key != field :: e in Remove(es, field)
  {
  }

  /** A group built from shared fields passes the unsupported-field check. */
  ghost predicate GroupShape(shared: set<string>, n: Node) {
    n.Mapping? && UniqueKeys(n.entries) && forall e | e in n.entries ::
      '.' !in e.key && (e.key == "name" || e.key == "keys" || e.key in shared)
  }

  lemma SetKeepsShape(shared: set<string>, n: Node, field: string, v: Node)
    requires GroupShape(shared, n) && '.' !in field && (field == "name" || field == "keys" || field in shared)
    ensures GroupShape(shared, Set(n, Split(field), v))
  {
    SplitDotFree(field);
    PutKeys(n.entries, field, v);
    assert Set(n, [field], v) == Mapping(Put(n.entries, field, Set(ChildOrNew(n, field), [field][1..], v)));
  }

  /** What a field is in the two halves of a split entry. */
  lemma {:induction false} SplitEntryFields(shared: set<string>, group: Node, key: Node, fields: seq<Entry>, f: string)
    requires GroupShape(shared, group) && key.Mapping? && UniqueKeys(key.entries)
    requires UniqueKeys(fields) && forall i | 0 <= i < |fields| :: '.' !in fields[i].key
    ensures var (g, k) := SplitEntry(shared, group, key, fields);
      && GroupShape(shared, g) && k.Mapping? && UniqueKeys(k.entries)
      && (forall e | e in k.entries :: e in key.entries)
      && (forall e | e in key.entries && e.key !in shared :: e in k.entries)
      && Child(g, f) == (if f in shared && Lookup(fields, f).Some? then Lookup(fields, f) else Child(group, f))
      && Child(k, f) == (if f in shared && Lookup(fields, f).Some? then None else Child(key, f))
    decreases |fields|
  {
    if fields != [] {
      var e := fields[0];
      LookupIsMember(fields[1..], e.key);
      if e.key in shared {
        SplitDotFree(e.key);
        SetField(group, e.key, e.value, f);
        SetKeepsShape(shared, group, e.key, e.value);
        DeleteField(key, e.key, f);
        SplitEntryFields(shared, Set(group, Split(e.key), e.value), Delete(key, Split(e.key)), fields[1..], f);
      } else {
        SplitEntryFields(shared, group, key, fields[1..], f);
      }
    }
  }

  lemma {:induction false} InheritedField(shared: set<string>, item: Node, es: seq<Entry>, f: string)
    requires item.Mapping? && UniqueKeys(es)
    requires forall i | 0 <= i < |es| :: '.' !in es[i].key
    ensures InheritFields(shared, item, es).Mapping?
    ensures Child(InheritFields(shared, item, es), f) ==
      if f in shared && Lookup(es, f).Some? then Lookup(es, f) else Child(item, f)
    decreases |es|
  {
    if es != [] {
      var e := es[0];
      LookupIsMember(es[1..], e.key);
      if e.key in shared { SetField(item, e.key, e.value, f); }
      InheritedField(shared, if e.key in shared then Set(item, Split(e.key), e.value) else item, es[1..], f);
    }
  }

  lemma {:induction false} OverriddenField(item: Node, es: seq<Entry>, f: string)
    requires item.Mapping? && UniqueKeys(es)
    requires forall i | 0 <= i < |es| :: '.' !in es[i].key
    ensures OverrideFields(item, es).Mapping?
    ensures Child(OverrideFields(item, es), f) ==
      if !AuthIndex(f) && Lookup(es, f).Some? && !IsNull(Lookup(es, f).value) then Lookup(es, f) else Child(item, f)
    decreases |es|
  {
    if es != [] {
      var e := es[0];
      LookupIsMember(es[1..], e.key);
      var skip := AuthIndex(e.key) || IsNull(e.value);
      if !skip { SetField(item, e.key, e.value, f); }
      OverriddenField(if skip then item else Set(item, Split(e.key), e.value), es[1..], f);
    }
  }

  /** A set of fields an entry shares with another, named field by field. */
  ghost predicate SameFieldsUnlessDropped(shared: set<string>, entry: Node, item: Node) {
    item.Mapping? && forall f: string ::
      Child(item, f) == if Dropped(shared, f, Child(entry, f)) then None else Child(entry, f)
  }

  lemma GroupedEntry(shared: set<string>, entry: Node, provider: string, index: nat, f: string)
    requires FieldNames(shared) && PlainEntry(entry) && provider != OPENAI
    ensures var (_, k) := EntryHalves(shared, entry, provider, index);
      var group := GroupEntry(shared, entry, provider, index);
      && GroupShape(shared, group) && Child(group, "keys") == Some(Sequence([k]))
      && k.Mapping? && UniqueKeys(k.entries)
      && (forall e | e in k.entries :: e in entry.entries)
      && (forall e | e in entry.entries && e.key !in shared :: e in k.entries)
      && Child(k, f) == (if f in shared then None else Child(entry, f))
      && (f in shared ==> Child(group, f) == Child(entry, f))
  {
    var name := Scalar("!!str", provider + "-" + Decimal.Text(index + 1));
    var start := Mapping([Entry("name", name)]);
    var (g, k) := EntryHalves(shared, entry, provider, index);
    SplitEntryFields(shared, start, entry, entry.entries, f);
    SplitDotFree("keys");
    SetKeepsShape(shared, g, "keys", Sequence([k]));
    SetField(g, "keys", Sequence([k]), "keys");
    SetField(g, "keys", Sequence([k]), f);
    assert Lookup(start.entries[1..], f) == None;
  }

  /** The entry that expanding a group of one key yields. */
  function SoleItem(shared: set<string>, group: Node, key: Node): Node
    requires group.Mapping? && key.Mapping?
  {
    OverrideFields(InheritFields(shared, EMPTY_MAP, group.entries), key.entries)
  }

  lemma SoleItemField(shared: set<string>, entry: Node, provider: string, index: nat, f: string)
    requires FieldNames(shared) && PlainEntry(entry) && provider != OPENAI
    ensures var (_, k) := EntryHalves(shared, entry, provider, index);
      var group := GroupEntry(shared, entry, provider, index);
      group.Mapping? && k.Mapping? && SoleItem(shared, group, k).Mapping?
      && Child(SoleItem(shared, group, k), f) == if Dropped(shared, f, Child(entry, f)) then None else Child(entry, f)
  {
    GroupedEntry(shared, entry, provider, index, f);
    var group, k := GroupEntry(shared, entry, provider, index), EntryHalves(shared, entry, provider, index).1;
    assert forall i | 0 <= i < |group.entries| :: group.entries[i] in group.entries;
    forall i | 0 <= i < |k.entries| ensures '.' !in k.entries[i].key {
      assert k.entries[i] in entry.entries;
    }
    InheritedField(shared, EMPTY_MAP, group.entries, f);
    OverriddenField(InheritFields(shared, EMPTY_MAP, group.entries), k.entries, f);
  }

  lemma ExpandSole(shared: set<string>, group: Node, key: Node, provider: string, weightOk: Node -> bool)
    requires GroupShape(shared, group) && provider != OPENAI && key.Mapping?
    requires Child(group, "keys") == Some(Sequence([key])) && Child(key, "base-url").None?
    ensures ExpandGroup(shared, group, provider, weightOk) ==
      if WeightOk(key, weightOk) then Ok([SoleItem(shared, group, key)]) else Err(InvalidWeight)
  {
    assert [key][0] == key;
    assert WeightsOk([key], weightOk) <==> WeightOk(key, weightOk);
    assert forall i | 0 <= i < |group.entries| :: group.entries[i] in group.entries;
    assert [key][1..] == [];
    assert ExpandKeys(shared, group.entries, []) == Ok([]);
    assert [SoleItem(shared, group, key)] + [] == [SoleItem(shared, group, key)];
  }

  /** Grouping one legacy entry and expanding the group gives back its fields. */
  lemma EntryRoundTrip(shared: set<string>, entry: Node, provider: string, index: nat, weightOk: Node -> bool)
    requires FieldNames(shared) && PlainEntry(entry) && provider != OPENAI
    ensures var r := ExpandGroup(shared, GroupEntry(shared, entry, provider, index), provider, weightOk);
      if WeightOk(entry, weightOk) then r.Ok? && |r.value| == 1 && SameFieldsUnlessDropped(shared, entry, r.value[0])
      else r == Err(InvalidWeight)
  {
    var group, k := GroupEntry(shared, entry, provider, index), EntryHalves(shared, entry, provider, index).1;
    GroupedEntry(shared, entry, provider, index, "base-url");
    ExpandSole(shared, group, k, provider, weightOk);
    WeightsAgree(shared, entry, k, weightOk);
    forall f: string {
      SoleItemField(shared, entry, provider, index, f);
    }
  }

  lemma WeightsAgree(shared: set<string>, entry: Node, k: Node, weightOk: Node -> bool)
    requires "weight" !in shared && entry.Mapping? && k.Mapping?
    requires forall e | e in k.entries :: e in entry.entries
    requires forall e | e in entry.entries && e.key !in shared :: e in k.entries
    ensures WeightOk(k, weightOk) <==> WeightOk(entry, weightOk)
  {
    if WeightOk(entry, weightOk) {
      forall j | 0 <= j < |k.entries| && k.entries[j].key == "weight" ensures weightOk(k.entries[j].value) {
        assert k.entries[j] in entry.entries;
      }
    }
    if WeightOk(k, weightOk) {
      forall j | 0 <= j < |entry.entries| && entry.entries[j].key == "weight" ensures weightOk(entry.entries[j].value) {
        assert entry.entries[j] in k.entries;
      }
    }
  }

  ghost predicate AllKept(shared: set<string>, entries: seq<Node>, items: seq<Node>) {
    if entries == [] then items == []
    else items != [] && SameFieldsUnlessDropped(shared, entries[0], items[0]) && AllKept(shared, entries[1..], items[1..])
  }

  lemma {:induction false} AllKeptMeans(shared: set<string>, entries: seq<Node>, items: seq<Node>)
    requires AllKept(shared, entries, items)
    ensures |items| == |entries|
    ensures forall i | 0 <= i < |entries| :: SameFieldsUnlessDropped(shared, entries[i], items[i])
    decreases |entries|
  {
    if entries != [] {
      AllKeptMeans(shared, entries[1..], items[1..]);
      assert forall i | 1 <= i < |entries| :: entries[i] == entries[1..][i - 1];
    }
  }

  lemma WeightsSplit(entries: seq<Node>, weightOk: Node -> bool)
    requires entries != []
    ensures WeightsOk(entries, weightOk) <==> WeightOk(entries[0], weightOk) && WeightsOk(entries[1..], weightOk)
  {
    assert forall i | 1 <= i < |entries| :: entries[i] == entries[1..][i - 1];
  }

  lemma {:induction false} GroupsReadBack(shared: set<string>, entries: seq<Node>, provider: string, index: nat,
                                          weightOk: Node -> bool)
    requires FieldNames(shared) && provider != OPENAI
    requires forall i | 0 <= i < |entries| :: PlainEntry(entries[i])
    ensures var r := ExpandAll(shared, GroupAll(shared, entries, provider, index), provider, weightOk);
      (r.Ok? <==> WeightsOk(entries, weightOk)) && (r.Ok? ==> AllKept(shared, entries, r.value))
    decreases |entries|
  {
    if entries != [] {
      var groups := GroupAll(shared, entries, provider, index);
      EntryRoundTrip(shared, entries[0], provider, index, weightOk);
      GroupsReadBack(shared, entries[1..], provider, index + 1, weightOk);
      assert groups[0] == GroupEntry(shared, entries[0], provider, index);
      assert groups[1..] == GroupAll(shared, entries[1..], provider, index + 1);
      WeightsSplit(entries, weightOk);
    }
  }

  /** Main result: every list of plain legacy entries survives grouping and expansion, entry by entry, in order. */
  lemma GroupRoundTrip(shared: set<string>, entries: seq<Node>, provider: string, index: nat, weightOk: Node -> bool)
    requires FieldNames(shared) && provider != OPENAI
    requires forall i | 0 <= i < |entries| :: PlainEntry(entries[i])
    ensures var r := ExpandAll(shared, GroupAll(shared, entries, provider, index), provider, weightOk);
      && (r.Ok? <==> WeightsOk(entries, weightOk))
      && (r.Ok? ==> |r.value| == |entries|)
      && (r.Ok? ==> forall i | 0 <= i < |entries| :: SameFieldsUnlessDropped(shared, entries[i], r.value[i]))
  {
    var r := ExpandAll(shared, GroupAll(shared, entries, provider, index), provider, weightOk);
    GroupsReadBack(shared, entries, provider, index, weightOk);
    if r.Ok? { AllKeptMeans(shared, entries, r.value); }
  }

  /** The credential list of an openai-compatibility entry; a missing list counts as empty. */
  function EntryKeys(entry: Node): Node {
    var listed := Child(entry, "api-key-entries");
    if listed.Some? then listed.value else Sequence([])
  }

  /** The credential list is a list and its weights are valid. */
  predicate KeysUsable(entry: Node, weightOk: Node -> bool) {
    EntryKeys(entry).Sequence? && WeightsOk(EntryKeys(entry).items, weightOk)
  }

  ghost predicate SameOpenAiFields(entry: Node, item: Node) {
    item.Mapping? && EntryKeys(entry).Sequence? && forall f: string ::
      Child(item, f) ==
        if f == "api-key-entries" then Some(Sequence(CleanKeys(EntryKeys(entry).items)))
        else if f == "keys" || AuthIndex(f) then None
        else Child(entry, f)
  }

  /** The v8 document is readable again exactly when the legacy credential list is a list. */
  lemma OpenAiEntryRoundTrip(shared: set<string>, entry: Node, index: nat, weightOk: Node -> bool)
    requires entry.Mapping? && UniqueKeys(entry.entries)
    ensures var r := ExpandGroup(shared, GroupEntry(shared, entry, OPENAI, index), OPENAI, weightOk);
      if KeysUsable(entry, weightOk) then r.Ok? && |r.value| == 1 && SameOpenAiFields(entry, r.value[0])
      else r == Err(if EntryKeys(entry).Sequence? then InvalidWeight else KeysNotList)
  {
    var keys := EntryKeys(entry);
    var withKeys := SetOne(entry, "keys", keys);
    assert withKeys == Set(entry, ["keys"], keys);
    var group := Delete(withKeys, ["api-key-entries"]);
    assert group == GroupEntry(shared, entry, OPENAI, index);
    SetOneField(entry, "keys", keys, "keys");
    DeleteField(withKeys, "api-key-entries", "keys");
    if KeysUsable(entry, weightOk) {
      var stripped := Delete(group, ["keys"]);
      DeleteField(group, "keys", "keys");
      DeleteField(stripped, "auth_index", "keys");
      var clean := WithoutAuthIndex(stripped);
      DeleteField(Delete(stripped, ["auth_index"]), "auth-index", "keys");
      var list := Sequence(CleanKeys(keys.items));
      var item := SetOne(clean, "api-key-entries", list);
      assert item == Set(clean, ["api-key-entries"], list);
      forall f: string ensures Child(item, f) ==
          if f == "api-key-entries" then Some(list) else if f == "keys" || AuthIndex(f) then None else Child(entry, f)
      {
        SetOneField(entry, "keys", keys, f);
        DeleteField(withKeys, "api-key-entries", f);
        DeleteField(group, "keys", f);
        DeleteField(stripped, "auth_index", f);
        DeleteField(Delete(stripped, ["auth_index"]), "auth-index", f);
        SetOneField(clean, "api-key-entries", list, f);
      }
    }
  }

  /** Storing one dot-free field of a mapping. */
  function SetOne(n: Node, field: string, v: Node): (r: Node)
    requires n.Mapping?
    ensures r == Set(n, [field], v)
  {
    assert Set(ChildOrNew(n, field), [field][1..], v) == v;
    Mapping(Put(n.entries, field, v))
  }

  lemma SetOneField(n: Node, field: string, v: Node, f: string)
    requires n.Mapping?
    ensures Child(SetOne(n, field, v), f) == if f == field then Some(v) else Child(n, f)
    ensures UniqueKeys(n.entries) ==> UniqueKeys(SetOne(n, field, v).entries)
  {
    LookupPut(n.entries, field, v, f);
    if UniqueKeys(n.entries) { PutKeys(n.entries, field, v); }
  }

  ghost predicate AllUsable(entries: seq<Node>, weightOk: Node -> bool) {
    entries == [] || (KeysUsable(entries[0], weightOk) && AllUsable(entries[1..], weightOk))
  }

  ghost predicate AllSame(entries: seq<Node>, items: seq<Node>) {
    if entries == [] then items == []
    else items != [] && SameOpenAiFields(entries[0], items[0]) && AllSame(entries[1..], items[1..])
  }

  lemma {:induction false} AllUsableMeans(entries: seq<Node>, weightOk: Node -> bool)
    ensures AllUsable(entries, weightOk) <==> forall i | 0 <= i < |entries| :: KeysUsable(entries[i], weightOk)
  {
    if entries != [] {
      AllUsableMeans(entries[1..], weightOk);
      assert forall i | 1 <= i < |entries| :: entries[i] == entries[1..][i - 1];
    }
  }

  lemma {:induction false} AllSameMeans(entries: seq<Node>, items: seq<Node>)
    requires AllSame(entries, items)
    ensures |items| == |entries| && forall i | 0 <= i < |entries| :: SameOpenAiFields(entries[i], items[i])
  {
    if entries != [] {
      AllSameMeans(entries[1..], items[1..]);
      assert forall i | 1 <= i < |entries| :: entries[i] == entries[1..][i - 1];
    }
  }

  lemma {:induction false} OpenAiGroupsReadBack(shared: set<string>, entries: seq<Node>, index: nat,
                                                weightOk: Node -> bool)
    requires forall i | 0 <= i < |entries| :: entries[i].Mapping? && UniqueKeys(entries[i].entries)
    ensures var r := ExpandAll(shared, GroupAll(shared, entries, OPENAI, index), OPENAI, weightOk);
      (r.Ok? <==> AllUsable(entries, weightOk)) && (r.Ok? ==> AllSame(entries, r.value))
    decreases |entries|
  {
    if entries != [] {
      var groups := GroupAll(shared, entries, OPENAI, index);
      OpenAiEntryRoundTrip(shared, entries[0], index, weightOk);
      OpenAiGroupsReadBack(shared, entries[1..], index + 1, weightOk);
      assert groups[0] == GroupEntry(shared, entries[0], OPENAI, index);
      assert groups[1..] == GroupAll(shared, entries[1..], OPENAI, index + 1);
    }
  }

  /** Main result: the list reads back exactly if every entry's credentials are usable. */
  lemma OpenAiGroupRoundTrip(shared: set<string>, entries: seq<Node>, index: nat, weightOk: Node -> bool)
    requires forall i | 0 <= i < |entries| :: entries[i].Mapping? && UniqueKeys(entries[i].entries)
    ensures var r := ExpandAll(shared, GroupAll(shared, entries, OPENAI, index), OPENAI, weightOk);
      && (r.Ok? <==> forall i | 0 <= i < |entries| :: KeysUsable(entries[i], weightOk))
      && (r.Ok? ==> |r.value| == |entries|)
      && (r.Ok? ==> forall i | 0 <= i < |entries| :: SameOpenAiFields(entries[i], r.value[i]))
  {
    var r := ExpandAll(shared, GroupAll(shared, entries, OPENAI, index), OPENAI, weightOk);
    OpenAiGroupsReadBack(shared, entries, index, weightOk);
    AllUsableMeans(entries, weightOk);
    if r.Ok? { AllSameMeans(entries, r.value); }
  }

  // ---- grouping produces no repeated key ---------------------------------

  lemma SplitEntryUnique(shared: set<string>, group: Node, key: Node, fields: seq<Entry>)
    requires Unique(group) && Unique(key) && forall i | 0 <= i < |fields| :: Unique(fields[i].value)
    ensures Unique(SplitEntry(shared, group, key, fields).0) && Unique(SplitEntry(shared, group, key, fields).1)
    decreases |fields|
  {
    if fields != [] {
      var e := fields[0];
      if e.key in shared {
        SetUnique(group, Split(e.key), e.value);
        DeleteUnique(key, Split(e.key));
        SplitEntryUnique(shared, Set(group, Split(e.key), e.value), Delete(key, Split(e.key)), fields[1..]);
      } else {
        SplitEntryUnique(shared, group, key, fields[1..]);
      }
    }
  }

  lemma GroupEntryUnique(shared: set<string>, entry: Node, provider: string, index: nat)
    requires Unique(entry)
    ensures Unique(GroupEntry(shared, entry, provider, index))
  {
    if provider == OPENAI {
      var keys := EntryKeys(entry);
      if Child(entry, "api-key-entries").Some? { ChildUnique(entry, "api-key-entries"); }
      SetUnique(entry, ["keys"], keys);
      DeleteUnique(Set(entry, ["keys"], keys), ["api-key-entries"]);
    } else {
      var name := Scalar("!!str", provider + "-" + Decimal.Text(index + 1));
      SplitEntryUnique(shared, Mapping([Entry("name", name)]), entry, EntriesOf(entry));
      var (group, key) := EntryHalves(shared, entry, provider, index);
      SetUnique(group, ["keys"], Sequence([key]));
    }
  }

  lemma {:induction false} GroupAllUnique(shared: set<string>, entries: seq<Node>, provider: string, index: nat)
    requires forall i | 0 <= i < |entries| :: Unique(entries[i])
    ensures Unique(Sequence(GroupAll(shared, entries, provider, index)))
    decreases |entries|
  {
    if entries != [] {
      var first := GroupEntry(shared, entries[0], provider, index);
      var rest := GroupAll(shared, entries[1..], provider, index + 1);
      GroupEntryUnique(shared, entries[0], provider, index);
      GroupAllUnique(shared, entries[1..], provider, index + 1);
      ConsUnique(first, rest);
    }
  }

  lemma ConsUnique(first: Node, rest: seq<Node>)
    requires Unique(first) && Unique(Sequence(rest))
    ensures Unique(Sequence([first] + rest))
  {
    assert forall i | 1 <= i < |[first] + rest| :: ([first] + rest)[i] == rest[i - 1];
  }

  lemma InterleaveUnique(es: seq<Entry>)
    requires forall i | 0 <= i < |es| :: Unique(es[i].value)
    ensures forall i | 0 <= i < |Interleave(es)| :: Unique(Interleave(es)[i])
  {
    if es != [] { InterleaveUnique(es[1..]); }
  }

  lemma GroupLegacyUnique(shared: set<string>, keys: Node, provider: string)
    requires Unique(keys)
    ensures Unique(GroupLegacyKeys(shared, keys, provider))
  {
    if keys.Mapping? { InterleaveUnique(keys.entries); }
    var items := Content(keys);
    assert forall i | 0 <= i < |items| :: Unique(items[i]);
    GroupAllUnique(shared, items, provider, 0);
  }

  /** The real tables: what the round trip asks of the shared fields holds of them. */
  lemma RealFieldNames()
    ensures FieldNames(GROUP_FIELDS)
  {
  }

  lemma EntryUnreadable(shared: set<string>, entry: Node, provider: string, index: nat, weightOk: Node -> bool)
    requires provider != OPENAI && !entry.Mapping?
    ensures ExpandGroup(shared, GroupEntry(shared, entry, provider, index), provider, weightOk).Err?
  {
    var (g, k) := EntryHalves(shared, entry, provider, index);
    assert EntriesOf(entry) == [] && k == entry;
    GetSetSame(g, ["keys"], Sequence([entry]));
    var group := GroupEntry(shared, entry, provider, index);
    assert group == Set(g, ["keys"], Sequence([k]));
    assert Child(group, "keys") == Get(group, ["keys"]) by { assert ["keys"][1..] == []; }
    assert ExpandKeys(shared, group.entries, [entry]).Err?;
  }

  /** A list with an entry that is no mapping, a null for example, cannot be read back once grouped. */
  lemma {:induction false} NonMappingUnreadable(shared: set<string>, entries: seq<Node>, provider: string, index: nat,
                                                weightOk: Node -> bool)
    requires provider != OPENAI && exists i | 0 <= i < |entries| :: !entries[i].Mapping?
    ensures ExpandAll(shared, GroupAll(shared, entries, provider, index), provider, weightOk).Err?
    decreases |entries|
  {
    var groups := GroupAll(shared, entries, provider, index);
    assert groups[0] == GroupEntry(shared, entries[0], provider, index);
    assert groups[1..] == GroupAll(shared, entries[1..], provider, index + 1);
    if !entries[0].Mapping? {
      EntryUnreadable(shared, entries[0], provider, index, weightOk);
    } else {
      var i :| 0 <= i < |entries| && !entries[i].Mapping?;
      assert entries[1..][i - 1] == entries[i];
      NonMappingUnreadable(shared, entries[1..], provider, index + 1, weightOk);
    }
  }
}
