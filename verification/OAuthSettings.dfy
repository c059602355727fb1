/**
 Cleaning up a channel's model settings, and looking one up: does the first change the second?

 Models SanitizeOAuthSettings of CLIProxyAPI/internal/config/config_normalization.go and
 ResolveOAuthModelSetting of CLIProxyAPI/internal/config/config_types.go.
 */
module OAuthSettings {
  import opened Wrappers
  import Text

  datatype Setting = Setting(openAPI: Option<bool>, name: string, alias: string, maxContextLength: int)

  /** A lookup, in normal form: the model's id, its id in metadata, its name. */
  datatype Query = Query(id: string, metaId: string, name: string)

  function Normal(s: string): string {
    Text.Lower(Text.Trim(s))
  }

  function NameOf(s: Setting): string {
    Normal(s.name)
  }

  function AliasOf(s: Setting): string {
    Normal(s.alias)
  }

  function Clean(s: Setting): Setting {
    s.(name := Text.Trim(s.name), alias := Text.Trim(s.alias))
  }

  /** What a lookup is told of the setting it selected. */
  datatype View = View(name: string, alias: string, openAPI: Option<bool>, maxContextLength: int)

  function ViewOf(s: Setting): View {
    View(NameOf(s), AliasOf(s), s.openAPI, s.maxContextLength)
  }

  /** The key under which settings count as the same. */
  function Key(s: Setting): string {
    NameOf(s) + "->" + AliasOf(s)
  }

  // ---- cleaning up --------------------------------------------------------------------

  predicate Live(s: Setting) {
    NameOf(s) != ""
  }

  predicate HasKey(settings: seq<Setting>, key: string) {
    exists i | 0 <= i < |settings| :: Live(settings[i]) && Key(settings[i]) == key
  }

  /** The last setting of every key stays, in the order of these; settings without a name go. */
  function Sanitized(settings: seq<Setting>): seq<Setting> {
    if settings == [] then []
    else
      var rest := Sanitized(settings[1..]);
      if !Live(settings[0]) || HasKey(settings[1..], Key(settings[0])) then rest else [Clean(settings[0])] + rest
  }

  lemma HasKeySplit(settings: seq<Setting>, key: string)
    requires settings != []
    ensures HasKey(settings, key) <==> (Live(settings[0]) && Key(settings[0]) == key) || HasKey(settings[1..], key)
  {
    if HasKey(settings[1..], key) {
      var i :| 0 <= i < |settings[1..]| && Live(settings[1..][i]) && Key(settings[1..][i]) == key;
      assert settings[i + 1] == settings[1..][i];
    }
    if HasKey(settings, key) && !(Live(settings[0]) && Key(settings[0]) == key) {
      var i :| 0 <= i < |settings| && Live(settings[i]) && Key(settings[i]) == key;
      assert settings[1..][i - 1] == settings[i];
    }
  }

  /** The loop runs backwards, collects into a reversed list, and turns it around. */
  method Sanitize(settings: seq<Setting>) returns (clean: seq<Setting>)
    ensures clean == Sanitized(settings)
  {
    var seen: set<string> := {};
    var reversed: seq<Setting> := [];
    var i := |settings|;
    while i > 0
      invariant 0 <= i <= |settings|
      invariant forall key :: key in seen <==> HasKey(settings[i..], key)
      invariant Turned(reversed) == Sanitized(settings[i..])
    {
      i := i - 1;
      var entry := settings[i];
      assert settings[i..][0] == entry && settings[i..][1..] == settings[i + 1..];
      forall key ensures HasKey(settings[i..], key) <==>
        (Live(entry) && Key(entry) == key) || HasKey(settings[i + 1..], key)
      {
        HasKeySplit(settings[i..], key);
      }
      var name := Text.Trim(entry.name);
      if name != "" {
        var alias := Text.Trim(entry.alias);
        var key := Text.Lower(name) + "->" + Text.Lower(alias);
        if key !in seen {
          seen := seen + {key};
          reversed := reversed + [Setting(entry.openAPI, name, alias, entry.maxContextLength)];
        }
      }
    }
    assert settings[0..] == settings;
    clean := [];
    for j := 0 to |reversed|
      invariant clean == Turned(reversed[..j])
    {
      assert reversed[..j + 1][..j] == reversed[..j];
      clean := [reversed[j]] + clean;
    }
    assert reversed[..|reversed|] == reversed;
  }

  function Turned(s: seq<Setting>): seq<Setting> {
    if s == [] then [] else [s[|s| - 1]] + Turned(s[..|s| - 1])
  }

  // ---- looking up ------------------------------------------------------------------------

  predicate AliasHit(s: Setting, q: Query) {
    Live(s) && AliasOf(s) != "" && q.id != "" && q.id == AliasOf(s)
  }

  predicate NameHit(s: Setting, q: Query) {
    Live(s) && !AliasHit(s, q) && (AliasOf(s) == "" || AliasOf(s) == q.id) &&
    (q.id == NameOf(s) || (q.metaId != "" && q.metaId == NameOf(s)) || (q.name != "" && q.name == NameOf(s)))
  }

  predicate Hit(s: Setting, q: Query, byAlias: bool) {
    if byAlias then AliasHit(s, q) else NameHit(s, q)
  }

  /** The last setting that matches in one of the two ways. */
  function Last(settings: seq<Setting>, q: Query, byAlias: bool): Option<Setting> {
    if settings == [] then None
    else
      var later := Last(settings[1..], q, byAlias);
      if later.Some? then later else if Hit(settings[0], q, byAlias) then Some(settings[0]) else None
  }

  /** An alias match goes before a name match. */
  function Resolved(settings: seq<Setting>, q: Query): Option<Setting> {
    var byAlias := Last(settings, q, true);
    if byAlias.Some? then byAlias else Last(settings, q, false)
  }

  lemma {:induction false} LastAppend(settings: seq<Setting>, s: Setting, q: Query, byAlias: bool)
    ensures Last(settings + [s], q, byAlias) == if Hit(s, q, byAlias) then Some(s) else Last(settings, q, byAlias)
  {
    if settings == [] {
      assert [] + [s] == [s] && [s][1..] == [];
    } else {
      assert (settings + [s])[1..] == settings[1..] + [s];
      LastAppend(settings[1..], s, q, byAlias);
    }
  }

  /** One pass over the settings, keeping the latest match of either kind. */
  method Resolve(settings: seq<Setting>, modelId: string, metadataModelId: string, modelName: string)
      returns (r: Option<Setting>)
    ensures r == Resolved(settings, Query(Normal(modelId), Normal(metadataModelId), Normal(modelName)))
  {
    var id, metaId, name := Normal(modelId), Normal(metadataModelId), Normal(modelName);
    ghost var q := Query(id, metaId, name);
    var aliasMatch: Option<Setting>, nameMatch: Option<Setting> := None, None;
    for i := 0 to |settings|
      invariant aliasMatch == Last(settings[..i], q, true) && nameMatch == Last(settings[..i], q, false)
    {
      var entry := settings[i];
      assert settings[..i + 1] == settings[..i] + [entry];
      LastAppend(settings[..i], entry, q, true);
      LastAppend(settings[..i], entry, q, false);
      var entryName := Normal(entry.name);
      if entryName != "" {
        var entryAlias := Normal(entry.alias);
        if entryAlias != "" && id != "" && id == entryAlias {
          aliasMatch := Some(entry);
        } else if (entryAlias == "" || entryAlias == id) &&
                  (id == entryName || (metaId != "" && metaId == entryName) || (name != "" && name == entryName)) {
          nameMatch := Some(entry);
        }
      }
    }
    assert settings[..|settings|] == settings;
    r := if aliasMatch.Some? then aliasMatch else nameMatch;
  }

  // ---- when cleaning up changes no lookup ----------------------------------------------------

  /** Some lookup selects this setting: nothing later answers to its alias, or to its bare name. */
  predicate Selectable(settings: seq<Setting>, i: nat)
    requires i < |settings|
  {
    && Live(settings[i])
    && forall j | i < j < |settings| && Live(settings[j]) && AliasOf(settings[j]) == AliasOf(settings[i]) ::
         AliasOf(settings[i]) == "" && NameOf(settings[j]) != NameOf(settings[i])
  }

  /** No setting that a lookup can select shares its key with a later one. */
  predicate SelectableKept(settings: seq<Setting>) {
    forall i {:trigger Selectable(settings, i)} | 0 <= i < |settings| && Selectable(settings, i) ::
      !HasKey(settings[i + 1..], Key(settings[i]))
  }

  function Seen(s: Option<Setting>): Option<View> {
    match s case None => None case Some(x) => Some(ViewOf(x))
  }

  lemma CleanView(s: Setting)
    ensures ViewOf(Clean(s)) == ViewOf(s)
  {
    Text.TrimTwice(s.name);
    Text.TrimTwice(s.alias);
  }

  lemma SelectableTail(settings: seq<Setting>, i: nat)
    requires settings != [] && i < |settings[1..]|
    ensures Selectable(settings[1..], i) <==> Selectable(settings, i + 1)
  {
    var t := settings[1..];
    assert forall j | 0 <= j < |t| :: t[j] == settings[j + 1];
    if Selectable(t, i) {
      forall j | i + 1 < j < |settings| && Live(settings[j]) && AliasOf(settings[j]) == AliasOf(settings[i + 1])
        ensures AliasOf(settings[i + 1]) == "" && NameOf(settings[j]) != NameOf(settings[i + 1])
      {
        assert settings[j] == t[j - 1];
      }
    }
  }

  lemma KeptTail(settings: seq<Setting>)
    requires settings != [] && SelectableKept(settings)
    ensures SelectableKept(settings[1..])
  {
    var t := settings[1..];
    forall i | 0 <= i < |t| && Selectable(t, i) ensures !HasKey(t[i + 1..], Key(t[i])) {
      SelectableTail(settings, i);
      assert t[i + 1..] == settings[i + 2..] && t[i] == settings[i + 1];
      assert Selectable(settings, i + 1);
    }
  }

  lemma {:induction false} NoLater(settings: seq<Setting>, q: Query, byAlias: bool)
    requires Last(settings, q, byAlias) == None
    ensures forall j | 0 <= j < |settings| :: !Hit(settings[j], q, byAlias)
  {
    if settings != [] { NoLater(settings[1..], q, byAlias); }
  }

  /** A setting that is hit, with none hit after it, is selectable. */
  lemma HitSelectable(settings: seq<Setting>, q: Query, byAlias: bool)
    requires settings != [] && Hit(settings[0], q, byAlias) && Last(settings[1..], q, byAlias) == None
    ensures Selectable(settings, 0)
  {
    NoLater(settings[1..], q, byAlias);
    forall j | 0 < j < |settings| && Live(settings[j]) && AliasOf(settings[j]) == AliasOf(settings[0])
      ensures AliasOf(settings[0]) == "" && NameOf(settings[j]) != NameOf(settings[0])
    {
      assert settings[1..][j - 1] == settings[j];
      assert !Hit(settings[j], q, byAlias);
    }
  }

  lemma {:induction false} LastKept(settings: seq<Setting>, q: Query, byAlias: bool)
    requires SelectableKept(settings)
    ensures Seen(Last(Sanitized(settings), q, byAlias)) == Seen(Last(settings, q, byAlias))
  {
    if settings != [] {
      KeptTail(settings);
      LastKept(settings[1..], q, byAlias);
      CleanView(settings[0]);
      if Last(settings[1..], q, byAlias) == None && Hit(settings[0], q, byAlias) {
        HitSelectable(settings, q, byAlias);
        assert Sanitized(settings) == [Clean(settings[0])] + Sanitized(settings[1..]);
        assert Sanitized(settings)[1..] == Sanitized(settings[1..]);
      } else if Live(settings[0]) && !HasKey(settings[1..], Key(settings[0])) {
        assert Sanitized(settings)[1..] == Sanitized(settings[1..]);
      }
    }
  }

  // ---- the other direction ----------------------------------------------------------------

  /** What is kept comes from a setting with no later one under its key. */
  lemma {:induction false} KeptFrom(settings: seq<Setting>, e: nat) returns (k: nat)
    requires e < |Sanitized(settings)|
    ensures k < |settings| && Sanitized(settings)[e] == Clean(settings[k]) && Live(settings[k])
    ensures !HasKey(settings[k + 1..], Key(settings[k]))
  {
    var rest := Sanitized(settings[1..]);
    var kept := Live(settings[0]) && !HasKey(settings[1..], Key(settings[0]));
    if kept && e == 0 {
      k := 0;
    } else {
      var d := if kept then e - 1 else e;
      assert Sanitized(settings)[e] == rest[d];
      k := KeptFrom(settings[1..], d);
      assert settings[1..][k] == settings[k + 1] && settings[1..][k + 1..] == settings[k + 2..];
      k := k + 1;
    }
  }

  lemma {:induction false} LastIsOne(settings: seq<Setting>, q: Query, byAlias: bool) returns (k: nat)
    requires Last(settings, q, byAlias).Some?
    ensures k < |settings| && Last(settings, q, byAlias) == Some(settings[k]) && Hit(settings[k], q, byAlias)
  {
    if Last(settings[1..], q, byAlias).Some? {
      k := LastIsOne(settings[1..], q, byAlias);
      k := k + 1;
    } else {
      k := 0;
    }
  }

  lemma {:induction false} LastAt(settings: seq<Setting>, q: Query, byAlias: bool, i: nat)
    requires i < |settings| && Hit(settings[i], q, byAlias)
    requires forall j | i < j < |settings| :: !Hit(settings[j], q, byAlias)
    ensures Last(settings, q, byAlias) == Some(settings[i])
  {
    assert forall j | 0 <= j < |settings[1..]| :: settings[1..][j] == settings[j + 1];
    if i > 0 { LastAt(settings[1..], q, byAlias, i - 1); } else { NoneHit(settings[1..], q, byAlias); }
  }

  lemma {:induction false} NoneHit(settings: seq<Setting>, q: Query, byAlias: bool)
    requires forall j | 0 <= j < |settings| :: !Hit(settings[j], q, byAlias)
    ensures Last(settings, q, byAlias) == None
  {
    if settings != [] { NoneHit(settings[1..], q, byAlias); }
  }

  /** The lookup that selects a selectable setting. */
  function QueryFor(s: Setting): Query {
    if AliasOf(s) != "" then Query(AliasOf(s), "", "") else Query("", NameOf(s), "")
  }

  lemma Selected(settings: seq<Setting>, i: nat)
    requires i < |settings| && Selectable(settings, i)
    ensures Resolved(settings, QueryFor(settings[i])) == Some(settings[i])
  {
    var q := QueryFor(settings[i]);
    LastAt(settings, q, AliasOf(settings[i]) != "", i);
    if AliasOf(settings[i]) == "" && Last(settings, q, true).Some? {
      var k := LastIsOne(settings, q, true);
    }
  }

  /** If it was dropped for a later one, that lookup finds something else. */
  lemma DroppedMissed(settings: seq<Setting>, i: nat)
    requires i < |settings| && Selectable(settings, i) && HasKey(settings[i + 1..], Key(settings[i]))
    ensures Seen(Resolved(Sanitized(settings), QueryFor(settings[i]))) != Some(ViewOf(settings[i]))
  {
    var q, clean := QueryFor(settings[i]), Sanitized(settings);
    var r := Resolved(clean, q);
    if r.Some? && ViewOf(r.value) == ViewOf(settings[i]) {
      var e := LastIsOne(clean, q, Last(clean, q, true).Some?);
      var k := KeptFrom(settings, e);
      CleanView(settings[k]);
      SameKeyLater(settings, i, k);
    }
  }

  lemma SameKeyLater(settings: seq<Setting>, i: nat, k: nat)
    requires i < |settings| && k < |settings| && Live(settings[k]) && Selectable(settings, i)
    requires ViewOf(settings[k]).name == NameOf(settings[i]) && ViewOf(settings[k]).alias == AliasOf(settings[i])
    requires HasKey(settings[i + 1..], Key(settings[i]))
    ensures HasKey(settings[k + 1..], Key(settings[k]))
  {
    var m :| 0 <= m < |settings[i + 1..]| && Live(settings[i + 1..][m]) && Key(settings[i + 1..][m]) == Key(settings[i]);
    if k <= i {
      assert settings[k + 1..][i + m - k] == settings[i + 1..][m];
    }
  }

  /**
     Main result: cleaning up changes no lookup exactly if no setting that a lookup can select
     shares its key with a later one.
   */
  lemma SanitizeKeepsLookups(settings: seq<Setting>)
    ensures (forall q :: Seen(Resolved(Sanitized(settings), q)) == Seen(Resolved(settings, q))) <==>
            SelectableKept(settings)
  {
    if SelectableKept(settings) {
      forall q ensures Seen(Resolved(Sanitized(settings), q)) == Seen(Resolved(settings, q)) {
        LastKept(settings, q, true);
        LastKept(settings, q, false);
      }
    } else {
      var i: nat :| i < |settings| && Selectable(settings, i) && HasKey(settings[i + 1..], Key(settings[i]));
      Selected(settings, i);
      DroppedMissed(settings, i);
      var q := QueryFor(settings[i]);
      assert Seen(Resolved(Sanitized(settings), q)) != Seen(Resolved(settings, q));
    }
  }

  // ---- names without an arrow -------------------------------------------------------------------

  predicate NoArrow(s: string) {
    forall i | 0 <= i < |s| - 1 :: !(s[i] == '-' && s[i + 1] == '>')
  }

  lemma NotShorter(n: string, a: string, m: string, b: string)
    requires NoArrow(m) && n + "->" + a == m + "->" + b
    ensures |n| >= |m|
  {
    var key := n + "->" + a;
    assert key[|n|] == '-' && key[|n| + 1] == '>' && key[|m|] == '-';
    assert forall i | 0 <= i < |m| :: m[i] == key[i];
  }

  /** Then a key determines name and alias. */
  lemma KeyDetermines(s: Setting, t: Setting)
    requires NoArrow(NameOf(s)) && NoArrow(NameOf(t)) && Key(s) == Key(t)
    ensures NameOf(s) == NameOf(t) && AliasOf(s) == AliasOf(t)
  {
    NotShorter(NameOf(s), AliasOf(s), NameOf(t), AliasOf(t));
    NotShorter(NameOf(t), AliasOf(t), NameOf(s), AliasOf(s));
    assert NameOf(s) == Key(s)[..|NameOf(s)|] && NameOf(t) == Key(t)[..|NameOf(t)|];
    assert AliasOf(s) == Key(s)[|NameOf(s)| + 2..] && AliasOf(t) == Key(t)[|NameOf(t)| + 2..];
  }

  lemma {:induction false} TrimLeftArrow(s: string)
    requires NoArrow(s)
    ensures NoArrow(Text.TrimLeft(s))
  {
    if s != "" && Text.IsSpace(s[0]) {
      assert NoArrow(s[1..]) by {
        forall i | 0 <= i < |s[1..]| - 1 ensures !(s[1..][i] == '-' && s[1..][i + 1] == '>') {
          assert s[1..][i] == s[i + 1] && s[1..][i + 1] == s[i + 2];
        }
      }
      TrimLeftArrow(s[1..]);
    }
  }

  /** Normalising a name brings no arrow into it. */
  lemma NormalArrow(s: string)
    requires NoArrow(s)
    ensures NoArrow(Normal(s))
  {
    TrimLeftArrow(s);
    Text.TrimRightStable(Text.TrimLeft(s));
    var t := Text.Trim(s);
    assert forall i | 0 <= i < |t| :: t[i] == Text.TrimLeft(s)[i];
    assert forall i | 0 <= i < |t| :: Normal(s)[i] == Text.LowerChar(t[i]);
  }

  /** Main result: without an arrow in any name, cleaning up changes no lookup. */
  lemma ArrowFreeKept(settings: seq<Setting>, q: Query)
    requires forall i | 0 <= i < |settings| :: NoArrow(settings[i].name)
    ensures Seen(Resolved(Sanitized(settings), q)) == Seen(Resolved(settings, q))
  {
    forall i | 0 <= i < |settings| ensures NoArrow(NameOf(settings[i])) { NormalArrow(settings[i].name); }
    forall i | 0 <= i < |settings| && Selectable(settings, i) ensures !HasKey(settings[i + 1..], Key(settings[i])) {
      SelectableHasOwnKey(settings, i);
    }
    SanitizeKeepsLookups(settings);
  }

  lemma SelectableHasOwnKey(settings: seq<Setting>, i: nat)
    requires forall j | 0 <= j < |settings| :: NoArrow(NameOf(settings[j]))
    requires i < |settings| && Selectable(settings, i)
    ensures !HasKey(settings[i + 1..], Key(settings[i]))
  {
    var later := settings[i + 1..];
    forall m | 0 <= m < |later| && Live(later[m]) ensures Key(later[m]) != Key(settings[i]) {
      assert later[m] == settings[i + 1 + m];
      if Key(later[m]) == Key(settings[i]) { KeyDetermines(later[m], settings[i]); }
    }
  }

  lemma PlainText(s: string)
    requires s != "" && !Text.IsSpace(s[0]) && !Text.IsSpace(s[|s| - 1])
    requires forall i | 0 <= i < |s| :: !('A' <= s[i] <= 'Z')
    ensures Normal(s) == s
  {
  }

  /** With an arrow in a name a lookup can be lost: these two settings have the same key. */
  lemma ArrowLosesLookup()
    ensures var settings := [Setting(None, "a->b", "c", 1), Setting(None, "a", "b->c", 2)];
      && Seen(Resolved(settings, Query("c", "", ""))) == Some(View("a->b", "c", None, 1))
      && Seen(Resolved(Sanitized(settings), Query("c", "", ""))) != Some(View("a->b", "c", None, 1))
  {
    var settings := [Setting(None, "a->b", "c", 1), Setting(None, "a", "b->c", 2)];
    PlainText("a->b");
    PlainText("c");
    PlainText("a");
    PlainText("b->c");
    assert Selectable(settings, 0);
    assert settings[1..] == [settings[1]];
    assert Key(settings[0]) == "a->b->c" == Key(settings[1]);
    assert HasKey(settings[1..], Key(settings[0])) by { assert Live(settings[1..][0]); }
    Selected(settings, 0);
    DroppedMissed(settings, 0);
  }

  // ---- cleaning up twice ----------------------------------------------------------------------------

  ghost predicate Tidy(settings: seq<Setting>) {
    && (forall i | 0 <= i < |settings| :: Live(settings[i]) && Clean(settings[i]) == settings[i])
    && (forall i, j | 0 <= i < j < |settings| :: Key(settings[i]) != Key(settings[j]))
  }

  lemma {:induction false} SanitizedKeys(settings: seq<Setting>, key: string)
    ensures HasKey(Sanitized(settings), key) ==> HasKey(settings, key)
  {
    if settings != [] && HasKey(Sanitized(settings), key) {
      var e :| 0 <= e < |Sanitized(settings)| && Key(Sanitized(settings)[e]) == key;
      var k := KeptFrom(settings, e);
      CleanView(settings[k]);
      assert Live(settings[k]) && Key(settings[k]) == key;
    }
  }

  lemma {:induction false} SanitizedTidy(settings: seq<Setting>)
    ensures Tidy(Sanitized(settings))
  {
    if settings != [] {
      var s, rest := settings[0], Sanitized(settings[1..]);
      SanitizedTidy(settings[1..]);
      if Live(s) && !HasKey(settings[1..], Key(s)) {
        CleanView(s);
        Text.TrimTwice(s.name);
        Text.TrimTwice(s.alias);
        SanitizedKeys(settings[1..], Key(s));
        assert forall j | 0 <= j < |rest| :: Key(rest[j]) != Key(s);
      }
    }
  }

  lemma {:induction false} TidyStays(settings: seq<Setting>)
    requires Tidy(settings)
    ensures Sanitized(settings) == settings
  {
    if settings != [] {
      TidyStays(settings[1..]);
      assert settings == [settings[0]] + settings[1..];
    }
  }

  /** Main result: cleaning up twice is cleaning up once. */
  lemma SanitizeTwice(settings: seq<Setting>)
    ensures Sanitized(Sanitized(settings)) == Sanitized(settings)
  {
    SanitizedTidy(settings);
    TidyStays(Sanitized(settings));
  }
}
