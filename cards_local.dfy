/** The local card API of app/api/cards/local/route.ts: taxonomy
    predicates, the class-to-umbrella classifier, normalisation of a raw
    card's umbrella and ascension, the query filters and the reshaping of the
    flat stats. Reading and caching the JSON file is not modelled. */
module LocalCards {
  import opened Wrappers
  import opened Seqs
  import opened Text

  /** `UMBRELLAS` */
  const Umbrellas: seq<string> :=
    ["Vanguard", "Swiftborn", "Caster", "Support", "Healer", "Hybrid", "Specialist"]

  /** `ASCENSIONS` */
  const Ascensions: seq<string> := ["Hero", "Champion", "Guardian"]

  /** `isUmbrella`: `!!v && UMBRELLAS.includes(v)` */
  function IsUmbrella(v: Option<string>): (b: bool)
    ensures b <==> v.Some? && v.value in Umbrellas
    ensures v.None? || v == Some("") ==> !b
  {
    v.Some? && v.value != "" && v.value in Umbrellas
  }

  /** `isAscension`: `!!v && ASCENSIONS.includes(v)` */
  function IsAscension(v: Option<string>): (b: bool)
    ensures b <==> v.Some? && v.value in Ascensions
    ensures v.None? || v == Some("") ==> !b
  {
    v.Some? && v.value != "" && v.value in Ascensions
  }

  // ---------------------------------------------------------------------
  // The regular expressions of the classifier
  // ---------------------------------------------------------------------

  /** One piece of an alternative: literal text, `\s*`, `\s?` or `[-\s]?`. */
  datatype Piece = Word(w: string) | AnySpaces | OptSpace | OptDashOrSpace

  /** The alternative `p` matches `s` starting at index `i`. */
  predicate MatchesAt(s: string, i: nat, p: seq<Piece>)
    requires i <= |s|
    decreases |p|, |s| - i
  {
    if p == [] then true
    else match p[0]
      case Word(w) => StartsWith(s[i..], w) && MatchesAt(s, i + |w|, p[1..])
      case AnySpaces =>
        MatchesAt(s, i, p[1..]) || (i < |s| && IsJsSpace(s[i]) && MatchesAt(s, i + 1, p))
      case OptSpace =>
        MatchesAt(s, i, p[1..]) || (i < |s| && IsJsSpace(s[i]) && MatchesAt(s, i + 1, p[1..]))
      case OptDashOrSpace =>
        MatchesAt(s, i, p[1..])
        || (i < |s| && (s[i] == '-' || IsJsSpace(s[i])) && MatchesAt(s, i + 1, p[1..]))
  }

  /** `/(a|b|...)/.test(s)`: some alternative matches somewhere in `s`. */
  predicate Test(alts: seq<seq<Piece>>, s: string)
  {
    exists i: nat, a :: i <= |s| && a in alts && MatchesAt(s, i, a)
  }

  function Words(ws: seq<string>): (alts: seq<seq<Piece>>)
    ensures |alts| == |ws|
    ensures forall k :: 0 <= k < |ws| ==> alts[k] == [Word(ws[k])]
  {
    seq(|ws|, k requires 0 <= k < |ws| => [Word(ws[k])])
  }

  const VanguardPattern: seq<seq<Piece>> :=
    Words(["tank", "guardian", "juggernaut", "brute", "warrior", "fighter", "barbarian",
           "paladin", "crusader"])
    + [[Word("holy"), AnySpaces, Word("knight")]]
    + Words(["monk", "martial"])

  const SwiftbornPattern: seq<seq<Piece>> :=
    Words(["archer", "ranger", "hunter", "assassin", "rogue", "thief", "skirmisher", "scout",
           "speedster"])

  const HealerPattern: seq<seq<Piece>> :=
    Words(["healer", "cleric", "priest", "sage", "medic", "mender", "restorer"])

  const SupportPattern: seq<seq<Piece>> :=
    Words(["bard", "tactician", "engineer", "trap", "trickster", "controller", "warden",
           "keeper", "alchemist", "herbalist"])

  const CasterPattern: seq<seq<Piece>> :=
    Words(["mage", "wizard", "sorcerer", "elementalist", "necromancer", "conjurer", "shaman",
           "druid", "enchanter", "illusionist", "morpher", "summoner"])

  const HybridPattern: seq<seq<Piece>> :=
    [[Word("battle"), OptDashOrSpace, Word("mage")], [Word("spellblade")],
     [Word("death"), OptSpace, Word("knight")], [Word("dark"), OptSpace, Word("paladin")],
     [Word("mystic"), OptSpace, Word("knight")], [Word("rune"), OptSpace, Word("knight")],
     [Word("magical"), OptSpace, Word("ranger")]]

  /** The classifier's rules in the order it tries them. */
  const Rules: seq<(string, seq<seq<Piece>>)> :=
    [("Vanguard", VanguardPattern), ("Swiftborn", SwiftbornPattern), ("Healer", HealerPattern),
     ("Support", SupportPattern), ("Caster", CasterPattern), ("Hybrid", HybridPattern)]

  /** `deriveUmbrellaFromClass` */
  function DeriveUmbrellaFromClass(className: string): (r: string)
    ensures r in Umbrellas
  {
    var c := Lower(className);
    if Test(VanguardPattern, c) then "Vanguard"
    else if Test(SwiftbornPattern, c) then "Swiftborn"
    else if Test(HealerPattern, c) then "Healer"
    else if Test(SupportPattern, c) then "Support"
    else if Test(CasterPattern, c) then "Caster"
    else if Test(HybridPattern, c) then "Hybrid"
    else "Specialist"
  }

  /** The umbrella of the first rule whose pattern matches, or the fallback. */
  function FirstMatch(rules: seq<(string, seq<seq<Piece>>)>, c: string): string
  {
    if rules == [] then "Specialist"
    else if Test(rules[0].1, c) then rules[0].0
    else FirstMatch(rules[1..], c)
  }

  lemma {:induction false} FirstMatchIsFirst(rules: seq<(string, seq<seq<Piece>>)>, c: string, k: nat)
    requires k < |rules| && Test(rules[k].1, c)
    requires forall j :: 0 <= j < k ==> !Test(rules[j].1, c)
    ensures FirstMatch(rules, c) == rules[k].0
  {
    if k > 0 {
      FirstMatchIsFirst(rules[1..], c, k - 1);
    }
  }

  lemma {:induction false} FirstMatchNone(rules: seq<(string, seq<seq<Piece>>)>, c: string)
    requires forall j :: 0 <= j < |rules| ==> !Test(rules[j].1, c)
    ensures FirstMatch(rules, c) == "Specialist"
  {
    if rules != [] {
      FirstMatchNone(rules[1..], c);
    }
  }

  lemma DeriveIsFirstMatch(className: string)
    ensures DeriveUmbrellaFromClass(className) == FirstMatch(Rules, Lower(className))
  {
    var c := Lower(className);
    if Test(Rules[0].1, c) { FirstMatchIsFirst(Rules, c, 0); }
    else if Test(Rules[1].1, c) { FirstMatchIsFirst(Rules, c, 1); }
    else if Test(Rules[2].1, c) { FirstMatchIsFirst(Rules, c, 2); }
    else if Test(Rules[3].1, c) { FirstMatchIsFirst(Rules, c, 3); }
    else if Test(Rules[4].1, c) { FirstMatchIsFirst(Rules, c, 4); }
    else if Test(Rules[5].1, c) { FirstMatchIsFirst(Rules, c, 5); }
    else { FirstMatchNone(Rules, c); }
  }

  /** The tests run in a fixed order and the first that matches decides. */
  lemma ClassifierFirstMatchWins(className: string, k: nat)
    requires k < |Rules| && Test(Rules[k].1, Lower(className))
    requires forall j :: 0 <= j < k ==> !Test(Rules[j].1, Lower(className))
    ensures DeriveUmbrellaFromClass(className) == Rules[k].0
  {
    DeriveIsFirstMatch(className);
    FirstMatchIsFirst(Rules, Lower(className), k);
  }

  /** "Specialist" comes out exactly when no rule matches. */
  lemma ClassifierFallback(className: string)
    ensures DeriveUmbrellaFromClass(className) == "Specialist"
            <==> forall j :: 0 <= j < |Rules| ==> !Test(Rules[j].1, Lower(className))
  {
    var c := Lower(className);
    if Test(Rules[0].1, c) { FirstMatchIsFirst(Rules, c, 0); }
    else if Test(Rules[1].1, c) { FirstMatchIsFirst(Rules, c, 1); }
    else if Test(Rules[2].1, c) { FirstMatchIsFirst(Rules, c, 2); }
    else if Test(Rules[3].1, c) { FirstMatchIsFirst(Rules, c, 3); }
    else if Test(Rules[4].1, c) { FirstMatchIsFirst(Rules, c, 4); }
    else if Test(Rules[5].1, c) { FirstMatchIsFirst(Rules, c, 5); }
    else { FirstMatchNone(Rules, c); }
    DeriveIsFirstMatch(className);
  }

  /** A class containing "battle mage" or "battle-mage" never reaches the
      Hybrid rule, because the Caster rule's "mage" matches first. */
  lemma BattleMageIsNotHybrid(className: string, i: nat)
    requires i <= |Lower(className)|
    requires MatchesAt(Lower(className), i, [Word("battle"), OptDashOrSpace, Word("mage")])
    ensures DeriveUmbrellaFromClass(className) != "Hybrid"
  {
    var c := Lower(className);
    var rest: seq<Piece> := [OptDashOrSpace, Word("mage")];
    assert MatchesAt(c, i + 6, rest);
    var mage: seq<Piece> := [Word("mage")];
    assert CasterPattern[0] == mage;
    if MatchesAt(c, i + 6, mage) {
      assert Test(CasterPattern, c);
    } else {
      assert MatchesAt(c, i + 7, mage);
      assert Test(CasterPattern, c);
    }
  }

  // ---------------------------------------------------------------------
  // Cards
  // ---------------------------------------------------------------------

  /** A card as stored in the JSON file, with its nine stats flat. */
  datatype RawCard = RawCard(
    id: string, name: string, faction: string, cls: string, rarity: string,
    heroType: Option<string>, ascensionRank: Option<string>, attackType: string,
    hp: int, defense: int, power: int, strength: int, intelligence: int, speed: int,
    prana: int, stamina: int, focus: int,
    image: Option<string>)

  datatype LocalStats = LocalStats(hp: int, defense: int, power: int, strength: int,
                                   intelligence: int, speed: int, prana: int, stamina: int,
                                   focus: int)

  /** A card as the route returns it. */
  datatype ShapedCard = ShapedCard(
    id: string, name: string, faction: string, cls: string, rarity: string,
    heroType: string, ascensionRank: string, attackType: string,
    image: Option<string>, stats: LocalStats)

  datatype Taxonomy = Taxonomy(umbrella: string, ascension: string)

  /** `normalizeTypeAndAscension` */
  function NormalizeTypeAndAscension(raw: RawCard): (r: Taxonomy)
    ensures r.umbrella in Umbrellas && r.ascension in Ascensions
    ensures IsAscension(raw.ascensionRank) ==> r.ascension == raw.ascensionRank.value
    ensures !IsAscension(raw.ascensionRank) && IsAscension(raw.heroType) ==>
              r.ascension == raw.heroType.value
    ensures !IsAscension(raw.ascensionRank) && !IsAscension(raw.heroType) ==> r.ascension == "Hero"
    ensures IsUmbrella(raw.heroType) ==> r.umbrella == raw.heroType.value
    ensures !IsUmbrella(raw.heroType) ==> r.umbrella == DeriveUmbrellaFromClass(raw.cls)
  {
    var ascension :=
      if IsAscension(raw.ascensionRank) then raw.ascensionRank.value
      else if IsAscension(raw.heroType) then raw.heroType.value
      else "Hero";
    var umbrella :=
      if IsUmbrella(raw.heroType) then raw.heroType.value else DeriveUmbrellaFromClass(raw.cls);
    Taxonomy(umbrella, ascension)
  }

  /** The `data.map` of the route: identity fields and stats copied, taxonomy
      normalised. */
  function Shape(c: RawCard): (r: ShapedCard)
    ensures r.id == c.id && r.name == c.name && r.faction == c.faction && r.cls == c.cls
    ensures r.rarity == c.rarity && r.attackType == c.attackType && r.image == c.image
    ensures r.heroType in Umbrellas && r.ascensionRank in Ascensions
  {
    var t := NormalizeTypeAndAscension(c);
    ShapedCard(c.id, c.name, c.faction, c.cls, c.rarity, t.umbrella, t.ascension, c.attackType,
               c.image,
               LocalStats(c.hp, c.defense, c.power, c.strength, c.intelligence, c.speed,
                          c.prana, c.stamina, c.focus))
  }

  /** The inverse reshaping: a raw card carrying the shaped card's taxonomy. */
  function Flatten(s: ShapedCard): RawCard
  {
    RawCard(s.id, s.name, s.faction, s.cls, s.rarity, Some(s.heroType), Some(s.ascensionRank),
            s.attackType, s.stats.hp, s.stats.defense, s.stats.power, s.stats.strength,
            s.stats.intelligence, s.stats.speed, s.stats.prana, s.stats.stamina, s.stats.focus,
            s.image)
  }

  /** Flattening a shaped card gives back the raw card except for its two
      taxonomy fields: identity and the nine stats survive one-for-one. */
  lemma ShapeFlattenRoundTrip(c: RawCard)
    ensures var t := NormalizeTypeAndAscension(c);
      Flatten(Shape(c)) == c.(heroType := Some(t.umbrella), ascensionRank := Some(t.ascension))
  {
  }

  /** A shaped card is already normalised: shaping it again changes nothing. */
  lemma ShapeIdempotent(c: RawCard)
    ensures Shape(Flatten(Shape(c))) == Shape(c)
  {
    var s := Shape(c);
    assert IsAscension(Some(s.ascensionRank));
    assert IsUmbrella(Some(s.heroType));
  }

  function ShapeAll(data: seq<RawCard>): (r: seq<ShapedCard>)
    ensures |r| == |data|
    ensures forall i :: 0 <= i < |data| ==> r[i] == Shape(data[i])
  {
    seq(|data|, i requires 0 <= i < |data| => Shape(data[i]))
  }

  // ---------------------------------------------------------------------
  // The route
  // ---------------------------------------------------------------------

  /** The query parameters; `None` is an absent parameter. */
  datatype Query = Query(faction: Option<string>, rarity: Option<string>, klass: Option<string>,
                         q: Option<string>, heroType: Option<string>, ascension: Option<string>)

  /** JavaScript truthiness of a query parameter. */
  predicate Given(v: Option<string>)
  {
    v.Some? && v.value != ""
  }

  /** `if (active) data = data.filter(p)` */
  function Narrow<T(==)>(s: seq<T>, active: bool, p: T -> bool): (r: seq<T>)
    ensures !active ==> r == s
    ensures active ==> r == Filter(s, p)
  {
    if active then Filter(s, p) else s
  }

  /** A narrowing step keeps, in order and with their multiplicity, exactly
      the elements that pass `p` when the parameter is given, and all of them
      when it is not. */
  lemma NarrowSpec<T>(s: seq<T>, active: bool, p: T -> bool)
    ensures IsSubsequence(Narrow(s, active, p), s)
    ensures forall x :: x in Narrow(s, active, p) <==> x in s && (active ==> p(x))
    ensures forall x :: x in s ==>
      multiset(Narrow(s, active, p))[x] == if !active || p(x) then multiset(s)[x] else 0
  {
    if active {
      FilterSpec(s, p);
    } else {
      SubsequenceReflexive(s);
    }
  }

  predicate FactionIs(c: RawCard, v: string) { c.faction == v }
  predicate RarityIs(c: RawCard, v: string) { c.rarity == v }
  predicate ClassHas(c: RawCard, v: string) { Contains(Lower(c.cls), Lower(v)) }
  predicate NameHas(c: RawCard, v: string) { Contains(Lower(c.name), Lower(v)) }

  function ByFaction(query: Query): RawCard -> bool { c => FactionIs(c, query.faction.GetOr("")) }
  function ByRarity(query: Query): RawCard -> bool { c => RarityIs(c, query.rarity.GetOr("")) }
  function ByClass(query: Query): RawCard -> bool { c => ClassHas(c, query.klass.GetOr("")) }
  function ByName(query: Query): RawCard -> bool { c => NameHas(c, query.q.GetOr("")) }
  function ByUmbrella(query: Query): ShapedCard -> bool
  {
    (s: ShapedCard) => s.heroType == query.heroType.GetOr("")
  }
  function ByAscension(query: Query): ShapedCard -> bool
  {
    (s: ShapedCard) => s.ascensionRank == query.ascension.GetOr("")
  }

  /** The four filters on raw cards, in the route's order. */
  function RawFilters(data: seq<RawCard>, query: Query): seq<RawCard>
  {
    var d1 := Narrow(data, Given(query.faction), ByFaction(query));
    var d2 := Narrow(d1, Given(query.rarity), ByRarity(query));
    var d3 := Narrow(d2, Given(query.klass), ByClass(query));
    Narrow(d3, Given(query.q), ByName(query))
  }

  /** A raw card passes every given raw filter: exact faction and rarity,
      case-insensitive substring of class and name. */
  predicate PassesRaw(c: RawCard, query: Query)
  {
    && (Given(query.faction) ==> FactionIs(c, query.faction.value))
    && (Given(query.rarity) ==> RarityIs(c, query.rarity.value))
    && (Given(query.klass) ==> ClassHas(c, query.klass.value))
    && (Given(query.q) ==> NameHas(c, query.q.value))
  }

  /** A shaped card passes the two taxonomy filters, each applied only when
      its value is valid. */
  predicate PassesTaxonomy(s: ShapedCard, query: Query)
  {
    && (Given(query.heroType) && IsUmbrella(query.heroType) ==> s.heroType == query.heroType.value)
    && (Given(query.ascension) && IsAscension(query.ascension) ==>
          s.ascensionRank == query.ascension.value)
  }

  /** The two taxonomy filters on shaped cards. */
  function TaxonomyFilters(shaped: seq<ShapedCard>, query: Query): seq<ShapedCard>
  {
    var byType :=
      Narrow(shaped, Given(query.heroType) && IsUmbrella(query.heroType), ByUmbrella(query));
    Narrow(byType, Given(query.ascension) && IsAscension(query.ascension), ByAscension(query))
  }

  /** `GET /api/cards/local` on the loaded cards. */
  function LocalGet(data: seq<RawCard>, query: Query): seq<ShapedCard>
  {
    TaxonomyFilters(ShapeAll(RawFilters(data, query)), query)
  }

  /** A raw card survives the whole route: it passes the raw filters and its
      shaped form passes the taxonomy filters. */
  predicate Survives(query: Query, c: RawCard)
  {
    PassesRaw(c, query) && PassesTaxonomy(Shape(c), query)
  }

  function Kept(query: Query): RawCard -> bool
  {
    c => Survives(query, c)
  }

  lemma NarrowConcat<T>(a: seq<T>, b: seq<T>, active: bool, p: T -> bool)
    ensures Narrow(a + b, active, p) == Narrow(a, active, p) + Narrow(b, active, p)
  {
    if active {
      FilterConcat(a, b, p);
    }
  }

  lemma RawFiltersConcat(a: seq<RawCard>, b: seq<RawCard>, query: Query)
    ensures RawFilters(a + b, query) == RawFilters(a, query) + RawFilters(b, query)
  {
    NarrowConcat(a, b, Given(query.faction), ByFaction(query));
    var a1 := Narrow(a, Given(query.faction), ByFaction(query));
    var b1 := Narrow(b, Given(query.faction), ByFaction(query));
    NarrowConcat(a1, b1, Given(query.rarity), ByRarity(query));
    var a2 := Narrow(a1, Given(query.rarity), ByRarity(query));
    var b2 := Narrow(b1, Given(query.rarity), ByRarity(query));
    NarrowConcat(a2, b2, Given(query.klass), ByClass(query));
    var a3 := Narrow(a2, Given(query.klass), ByClass(query));
    var b3 := Narrow(b2, Given(query.klass), ByClass(query));
    NarrowConcat(a3, b3, Given(query.q), ByName(query));
  }

  lemma TaxonomyFiltersConcat(a: seq<ShapedCard>, b: seq<ShapedCard>, query: Query)
    ensures TaxonomyFilters(a + b, query) == TaxonomyFilters(a, query) + TaxonomyFilters(b, query)
  {
    var h := Given(query.heroType) && IsUmbrella(query.heroType);
    NarrowConcat(a, b, h, ByUmbrella(query));
    NarrowConcat(Narrow(a, h, ByUmbrella(query)), Narrow(b, h, ByUmbrella(query)),
                 Given(query.ascension) && IsAscension(query.ascension), ByAscension(query));
  }

  lemma LocalGetSingle(c: RawCard, query: Query)
    ensures LocalGet([c], query) == if Survives(query, c) then [Shape(c)] else []
  {
    var r := RawFilters([c], query);
    assert r == if PassesRaw(c, query) then [c] else [];
    assert ShapeAll(r) == if PassesRaw(c, query) then [Shape(c)] else [];
  }

  /** The raw filters only narrow the list and keep its order; a card stays
      exactly when it passes all of them, as often as it occurs. */
  lemma {:induction false} RawFiltersAsOne(data: seq<RawCard>, query: Query)
    ensures RawFilters(data, query) == Filter(data, c => PassesRaw(c, query))
  {
    if data != [] {
      RawFiltersAsOne(data[1..], query);
      assert data == [data[0]] + data[1..];
      RawFiltersConcat([data[0]], data[1..], query);
      assert RawFilters([data[0]], query) == if PassesRaw(data[0], query) then [data[0]] else [];
    }
  }

  lemma ShapeAllConcat(a: seq<RawCard>, b: seq<RawCard>)
    ensures ShapeAll(a + b) == ShapeAll(a) + ShapeAll(b)
  {
  }

  lemma LocalGetConcat(a: seq<RawCard>, b: seq<RawCard>, query: Query)
    ensures LocalGet(a + b, query) == LocalGet(a, query) + LocalGet(b, query)
  {
    var ra := RawFilters(a, query);
    var rb := RawFilters(b, query);
    RawFiltersConcat(a, b, query);
    ShapeAllConcat(ra, rb);
    TaxonomyFiltersConcat(ShapeAll(ra), ShapeAll(rb), query);
  }

  /** The route's answer is the shape of exactly those raw cards, in order,
      that pass the raw filters and whose shaped form passes the taxonomy
      filters. */
  lemma {:induction false} LocalGetCharacterised(data: seq<RawCard>, query: Query)
    ensures LocalGet(data, query) == ShapeAll(Filter(data, Kept(query)))
  {
    if data != [] {
      var c := data[0];
      var tail := data[1..];
      var p := Kept(query);
      LocalGetCharacterised(tail, query);
      assert data == [c] + tail;
      LocalGetConcat([c], tail, query);
      LocalGetSingle(c, query);
      FilterConcat([c], tail, p);
      var head := Filter([c], p);
      assert [c][1..] == [];
      assert head == if Survives(query, c) then [c] else [];
      ShapeAllConcat(head, Filter(tail, p));
      assert ShapeAll(head) == if Survives(query, c) then [Shape(c)] else [];
    }
  }

  /** Every card in the answer is the shape of a card of the data that
      passes every filter, and every such card is in the answer. */
  lemma LocalGetSoundComplete(data: seq<RawCard>, query: Query)
    ensures forall s :: s in LocalGet(data, query) ==>
              exists c :: c in data && Survives(query, c) && s == Shape(c)
    ensures forall c :: c in data && Survives(query, c) ==> Shape(c) in LocalGet(data, query)
  {
    LocalGetCharacterised(data, query);
    var kept := Filter(data, Kept(query));
    FilterSpec(data, Kept(query));
    forall s | s in LocalGet(data, query)
      ensures exists c :: c in data && Survives(query, c) && s == Shape(c)
    {
      var i :| 0 <= i < |kept| && ShapeAll(kept)[i] == s;
      assert kept[i] in kept;
    }
    forall c | c in data && Survives(query, c)
      ensures Shape(c) in LocalGet(data, query)
    {
      var i :| 0 <= i < |kept| && kept[i] == c;
      assert ShapeAll(kept)[i] == Shape(c);
    }
  }

  /** With a `heroType` that names no umbrella the answer is the same as with
      no `heroType` at all. */
  lemma InvalidHeroTypeIgnored(data: seq<RawCard>, query: Query)
    requires !IsUmbrella(query.heroType)
    ensures LocalGet(data, query) == LocalGet(data, query.(heroType := None))
  {
    assert RawFilters(data, query) == RawFilters(data, query.(heroType := None));
  }

  /** With an `ascension` that names no ascension the answer is the same as
      with no `ascension` at all. */
  lemma InvalidAscensionIgnored(data: seq<RawCard>, query: Query)
    requires !IsAscension(query.ascension)
    ensures LocalGet(data, query) == LocalGet(data, query.(ascension := None))
  {
    assert RawFilters(data, query) == RawFilters(data, query.(ascension := None));
  }
}
