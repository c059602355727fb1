/**
 The settings that live at their v8 place already, with the real tables: what commentUnknownV8Sections
 permits because the structure of the configuration has it there (routing.strategy, the plugin section,
 the web search cache) keeps its value, and the runtime reads it as before.
 */
module NativeSettings {
  import opened YamlTree
  import opened LayoutMigration
  import opened UnmappedSettings
  import opened PathTrie
  import opened LayoutTable

  /** A permitted setting that the tables do not move. */
  predicate Native(q: Path, key: string) {
    q in EXTRAS && q != [] && key in EXTRAS[q] && q + [key] !in EXTRAS && Outside(TRIE, q + [key])
  }

  lemma SectionsOutside()
    ensures Outside(TRIE, [MODELS])
    ensures Outside(TRIE, [PLUGINS])
    ensures Outside(TRIE, [ROUTING, QUOTA_DRAIN])
    ensures Outside(TRIE, [CLIENT, CODEX, WEB_SEARCH_RESULT_CACHE])
  {
    assert Weighs([MODELS], Go(14383596, Stop));
    OutsideWeighed(TRIE, [MODELS], Go(14383596, Stop));
    assert Weighs([PLUGINS], Go(16529902, Stop));
    OutsideWeighed(TRIE, [PLUGINS], Go(16529902, Stop));
    assert Weighs([ROUTING, QUOTA_DRAIN], Go(16561134, Go(24934249, Stop)));
    OutsideWeighed(TRIE, [ROUTING, QUOTA_DRAIN], Go(16561134, Go(24934249, Stop)));
    assert Weighs([CLIENT, CODEX, WEB_SEARCH_RESULT_CACHE], Go(14219886, Go(12123237, Go(50197224, Stop))));
    OutsideWeighed(TRIE, [CLIENT, CODEX, WEB_SEARCH_RESULT_CACHE], Go(14219886, Go(12123237, Go(50197224, Stop))));
  }

  lemma RoutingOutside()
    ensures Outside(TRIE, [ROUTING, STRATEGY])
    ensures Outside(TRIE, [ROUTING, SESSION_AFFINITY])
    ensures Outside(TRIE, [ROUTING, SESSION_AFFINITY_TTL])
  {
    assert Weighs([ROUTING, STRATEGY], Go(16561134, Go(18676967, Stop)));
    OutsideWeighed(TRIE, [ROUTING, STRATEGY], Go(16561134, Go(18676967, Stop)));
    assert Weighs([ROUTING, SESSION_AFFINITY], Go(16561134, Go(35454196, Stop)));
    OutsideWeighed(TRIE, [ROUTING, SESSION_AFFINITY], Go(16561134, Go(35454196, Stop)));
    assert Weighs([ROUTING, SESSION_AFFINITY_TTL], Go(16561134, Go(43841140, Stop)));
    OutsideWeighed(TRIE, [ROUTING, SESSION_AFFINITY_TTL], Go(16561134, Go(43841140, Stop)));
  }

  lemma AffinityOutside()
    ensures Outside(TRIE, [ROUTING, SESSION_AFFINITY_SUBAGENTS])
    ensures Outside(TRIE, [ROUTING, SESSION_AFFINITY_REBIND_ON])
  {
    assert Weighs([ROUTING, SESSION_AFFINITY_SUBAGENTS], Go(16561134, Go(56424948, Stop)));
    OutsideWeighed(TRIE, [ROUTING, SESSION_AFFINITY_SUBAGENTS], Go(16561134, Go(56424948, Stop)));
    assert Weighs([ROUTING, SESSION_AFFINITY_REBIND_ON], Go(16561134, Go(56424303, Stop)));
    OutsideWeighed(TRIE, [ROUTING, SESSION_AFFINITY_REBIND_ON], Go(16561134, Go(56424303, Stop)));
  }

  lemma OthersOutside()
    ensures Outside(TRIE, [CLIENT, CODEX, ENABLE_APPLY_PATCH])
    ensures Outside(TRIE, [QUOTA_EXCEEDED, SWITCH_PROJECT])
    ensures Outside(TRIE, [QUOTA_EXCEEDED, SWITCH_PREVIEW_MODEL])
  {
    assert Weighs([CLIENT, CODEX, ENABLE_APPLY_PATCH], Go(14219886, Go(12123237, Go(39416931, Stop))));
    OutsideWeighed(TRIE, [CLIENT, CODEX, ENABLE_APPLY_PATCH], Go(14219886, Go(12123237, Go(39416931, Stop))));
    assert Weighs([QUOTA_EXCEEDED, SWITCH_PROJECT], Go(31224421, Go(31259235, Stop)));
    OutsideWeighed(TRIE, [QUOTA_EXCEEDED, SWITCH_PROJECT], Go(31224421, Go(31259235, Stop)));
    assert Weighs([QUOTA_EXCEEDED, SWITCH_PREVIEW_MODEL], Go(31224421, Go(43841125, Stop)));
    OutsideWeighed(TRIE, [QUOTA_EXCEEDED, SWITCH_PREVIEW_MODEL], Go(31224421, Go(43841125, Stop)));
  }

  /** These are all the permitted keys of such sections but the two the tables move. */
  lemma NativesAre(q: Path, key: string)
    requires q in EXTRAS && q != [] && key in EXTRAS[q] && q + [key] !in EXTRAS
    requires key != OPTIMIZE_MULTI_AGENT_V2 && key != ANTIGRAVITY_CREDITS
    ensures Native(q, key)
  {
    ExtraPaths(q);
    SectionsOutside();
    if Outside(TRIE, q) {
      OutsideOn(TRIE, q, [key]);
    } else {
      BranchNatives(q, key);
    }
  }

  lemma BranchNatives(q: Path, key: string)
    requires q in {[CLIENT], [CLIENT, CODEX], [QUOTA_EXCEEDED], [ROUTING]} && key in EXTRAS[q] && q + [key] !in EXTRAS
    requires key != OPTIMIZE_MULTI_AGENT_V2 && key != ANTIGRAVITY_CREDITS
    ensures Outside(TRIE, q + [key])
  {
    SharedSections();
    if q == [ROUTING] {
      assert q + [key] == [ROUTING, key];
      RoutingOutside();
      AffinityOutside();
    } else {
      assert |q| == 1 ==> q + [key] == [q[0], key];
      assert |q| == 2 ==> q + [key] == [q[0], q[1], key];
      OthersOutside();
    }
  }

  lemma FirstDiffers(p: Path, q: Path)
    requires p != [] && q != [] && p[0] != q[0]
    ensures p != q
  {
  }

  /** The keys of the sections that the tables share. */
  lemma SharedSections()
    ensures [CLIENT] in EXTRAS && EXTRAS[[CLIENT]] == {CODEX}
    ensures [CLIENT, CODEX] in EXTRAS
    ensures EXTRAS[[CLIENT, CODEX]] == {OPTIMIZE_MULTI_AGENT_V2, ENABLE_APPLY_PATCH, WEB_SEARCH_RESULT_CACHE}
    ensures [QUOTA_EXCEEDED] in EXTRAS
    ensures EXTRAS[[QUOTA_EXCEEDED]] == {SWITCH_PROJECT, SWITCH_PREVIEW_MODEL, ANTIGRAVITY_CREDITS}
    ensures [ROUTING] in EXTRAS
    ensures EXTRAS[[ROUTING]] == {STRATEGY, QUOTA_DRAIN, SESSION_AFFINITY, SESSION_AFFINITY_TTL,
                                  SESSION_AFFINITY_SUBAGENTS, SESSION_AFFINITY_REBIND_ON}
  {
    RootsDiffer();
    FirstDiffers([CLIENT], [PLUGINS]);
    FirstDiffers([CLIENT], [QUOTA_EXCEEDED]);
    FirstDiffers([CLIENT], [ROUTING]);
    FirstDiffers([CLIENT, CODEX], [ROUTING, QUOTA_DRAIN]);
    FirstDiffers([QUOTA_EXCEEDED], [ROUTING]);
  }

  // ---- they are permitted ---------------------------------------------------------------

  lemma ReachedOn(known: map<Path, set<string>>, q: Path, key: string)
    requires Reached(known, q) && q in known && key in known[q]
    ensures Reached(known, q + [key])
  {
    var p := q + [key];
    forall i | 0 <= i < |p| ensures p[..i] in known && p[i] in known[p[..i]] {
      assert p[..i] == if i < |q| then q[..i] else q;
    }
  }

  lemma SectionReached(known: map<Path, set<string>>, q: Path)
    requires forall p | p in EXTRAS :: p in known && EXTRAS[p] <= known[p]
    requires q in EXTRAS
    ensures Reached(known, q)
  {
    ExtraPaths(q);
    RootExtras();
    SharedSections();
    assert EXTRAS[[]] <= known[[]];
    if q != [] { RootReached(known, q[0]); }
    if |q| >= 2 {
      assert EXTRAS[[q[0]]] <= known[[q[0]]];
      ReachedOn(known, [q[0]], q[1]);
      assert [q[0]] + [q[1]] == [q[0], q[1]];
    }
    if |q| >= 3 {
      assert EXTRAS[[q[0], q[1]]] <= known[[q[0], q[1]]];
      ReachedOn(known, [q[0], q[1]], q[2]);
      assert [q[0], q[1]] + [q[2]] == q;
    }
  }

  lemma RootReached(known: map<Path, set<string>>, key: string)
    requires [] in known && key in known[[]]
    ensures Reached(known, [key])
  {
    ReachedOn(known, [], key);
  }

  lemma KnownNative(ms: seq<Move>, q: Path, key: string)
    requires AllPlaced(TRIE, ms) && Native(q, key)
    ensures Permitted([], q + [key], KnownBy(ms, EXTRAS))
  {
    SectionReached(KnownBy(ms, EXTRAS), q);
    ExtraPermitted(TRIE, ms, EXTRAS, q, key);
  }

  lemma NativePermitted(t: Table, q: Path, key: string)
    requires IsReal(t) && Native(q, key)
    ensures Permitted([], q + [key], t.known)
  {
    RealRowsChecked(t);
    PlacesStand(TRIE, t);
    KnownNative(t.Moves() + t.structs, q, key);
  }

  lemma NativeUnmapped(t: Table, q: Path, key: string)
    requires IsReal(t) && Native(q, key)
    ensures Unmapped(t, q + [key])
  {
    RealRowsChecked(t);
    VersionMarked();
    OutsideUnmapped(TRIE, t, q + [key], New(1000));
  }

  lemma NativeBesideShared(t: Table, q: Path, key: string)
    requires t.sharedStructs == SHARED_STRUCTS && q in EXTRAS && q != []
    ensures BesideShared(t, q + [key])
  {
    SharedPlaces(t);
    ExtraPaths(q);
    RootsDiffer();
    forall i | 0 <= i < |t.sharedStructs|
      ensures !Comparable(t.sharedStructs[i].legacy, q + [key]) && !Comparable(t.sharedStructs[i].current, q + [key])
    {
      FirstKeyDiffers(t.sharedStructs[i].legacy, q + [key], OAUTH);
      FirstKeyDiffers(t.sharedStructs[i].current, q + [key], UPSTREAM);
    }
  }

  lemma RootsDiffer()
    ensures OAUTH !in {MODELS, CLIENT, PLUGINS, QUOTA_EXCEEDED, ROUTING}
    ensures UPSTREAM !in {MODELS, CLIENT, PLUGINS, QUOTA_EXCEEDED, ROUTING}
    ensures CLIENT !in {MODELS, PLUGINS, QUOTA_EXCEEDED, ROUTING} && ROUTING !in {MODELS, PLUGINS, QUOTA_EXCEEDED}
    ensures QUOTA_EXCEEDED !in {MODELS, PLUGINS}
  {
    assert Weigh(OAUTH) == 12317812;
    assert Weigh(UPSTREAM) == 18708193;
    assert Weigh(MODELS) == 14383596;
    assert Weigh(CLIENT) == 14219886;
    assert Weigh(PLUGINS) == 16529902;
    assert Weigh(QUOTA_EXCEEDED) == 31224421;
    assert Weigh(ROUTING) == 16561134;
  }

  /**
   Main result: what UnmappedKept and UnmappedUnchanged ask of a setting holds of these, so the rewrite
   keeps them, also where it drops what it does not know, and the runtime reads them as before.
   */
  lemma RealNativesUntouched(t: Table, q: Path, key: string)
    requires IsReal(t) && Native(q, key)
    ensures Unmapped(t, q + [key]) && Permitted([], q + [key], t.known)
    ensures BesideShared(t, q + [key])
  {
    NativePermitted(t, q, key);
    NativeUnmapped(t, q, key);
    NativeBesideShared(t, q, key);
  }
}
