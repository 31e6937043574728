/** The card catalog API of app/api/cards/route.ts: the canonical card list,
    stat generation, the merge with optional database rows, the faction
    filter, and the shuffled, size-limited deck it answers with. */
module CardsApi {
  import opened Wrappers
  import opened Seqs
  import opened Text

  datatype Faction = Highlanders | Keepers

  function FactionName(f: Faction): string
  {
    match f
    case Highlanders => "Highlanders"
    case Keepers => "Keepers"
  }

  datatype Rarity = Common | Uncommon | Rare | Epic | Legendary | Mythic

  function RarityName(r: Rarity): string
  {
    match r
    case Common => "Common"
    case Uncommon => "Uncommon"
    case Rare => "Rare"
    case Epic => "Epic"
    case Legendary => "Legendary"
    case Mythic => "Mythic"
  }

  /** An entry of the canonical list: identity and taxonomy, no stats. */
  datatype CanonMeta = CanonMeta(id: string, name: string, faction: Faction, cls: string,
                                 rarity: Rarity, heroType: string, attackType: string)

  /** The nine stats, in the order `statsOrder` lists them. */
  datatype Stats = Stats(hp: int, prana: int, focus: int, stamina: int, strength: int,
                         intelligence: int, defense: int, speed: int, power: int)
  {
    function Values(): seq<int>
    {
      [hp, prana, focus, stamina, strength, intelligence, defense, speed, power]
    }
  }

  const StatCount: nat := 9

  function StatsFrom(v: seq<int>): (s: Stats)
    requires |v| == StatCount
    ensures s.Values() == v
  {
    Stats(v[0], v[1], v[2], v[3], v[4], v[5], v[6], v[7], v[8])
  }

  /** A card as the route returns it. Taxonomy fields are strings because a
      database row may override them with any text. */
  datatype Card = Card(id: string, name: string, faction: string, cls: string, rarity: string,
                       heroType: string, attackType: string, image: string, stats: Stats)

  // ---------------------------------------------------------------------
  // Shuffle
  // ---------------------------------------------------------------------

  /** `Math.floor(roll * (i + 1))` for a draw `roll` of `Math.random()`,
      computed over the reals. */
  function PickIndex(roll: real, i: nat): (j: nat)
    requires 0.0 <= roll < 1.0
    ensures j <= i
  {
    var x := roll * (i + 1) as real;
    ScaledRollBelow(roll, (i + 1) as real);
    x.Floor
  }

  lemma ScaledRollBelow(roll: real, n: real)
    requires 0.0 <= roll < 1.0 && n > 0.0
    ensures 0.0 <= roll * n < n
  {
    assert n - roll * n == (1.0 - roll) * n;
    assert (1.0 - roll) * n > 0.0;
  }

  /** `shuffle`: copy the argument, then walk `i` from the last index down to
      1, swapping `a[i]` with `a[j]` for a drawn `j` in `[0, i]`. `rolls[i]` is
      the draw used at step `i`. */
  method Shuffle<T>(arr: seq<T>, rolls: seq<real>) returns (r: seq<T>)
    requires |arr| <= |rolls|
    requires forall k :: 0 <= k < |rolls| ==> 0.0 <= rolls[k] < 1.0
    ensures |r| == |arr|
    ensures multiset(r) == multiset(arr)
  {
    var a := new T[|arr|](k requires 0 <= k < |arr| => arr[k]);
    assert a[..] == arr;
    var i := a.Length - 1;
    while i > 0
      invariant -1 <= i < a.Length
      invariant multiset(a[..]) == multiset(arr)
    {
      var j := PickIndex(rolls[i], i);
      a[i], a[j] := a[j], a[i];
      i := i - 1;
    }
    r := a[..];
  }

  // ---------------------------------------------------------------------
  // Query parameters
  // ---------------------------------------------------------------------

  function Max(a: int, b: int): int { if a < b then b else a }
  function Min(a: int, b: int): int { if a < b then a else b }

  /** `Math.max(1, Math.min(60, Number(size) || 20))`. `size` is `Number`'s
      reading of the parameter: `None` when it is absent or not a number. */
  function DeckSize(size: Option<int>): (n: int)
    ensures 1 <= n <= 60
    ensures size.None? || size == Some(0) ==> n == 20
    ensures size.Some? && 1 <= size.value <= 60 ==> n == size.value
    ensures size.Some? && size.value > 60 ==> n == 60
    ensures size.Some? && size.value < 0 ==> n == 1
  {
    var requested := if size.None? || size.value == 0 then 20 else size.value;
    Max(1, Min(60, requested))
  }

  /** `(format || 'array').toLowerCase() === 'object'` */
  function WantsObject(format: Option<string>): bool
  {
    var f := if format.None? || format.value == "" then "array" else format.value;
    Lower(f) == "object"
  }

  /** `applyFactionFilter` */
  function ApplyFactionFilter(cards: seq<Card>, filter: Option<string>): (r: seq<Card>)
    ensures filter != Some("Highlanders") && filter != Some("Keepers") ==> r == cards
    ensures filter == Some("Highlanders") || filter == Some("Keepers") ==>
      && IsSubsequence(r, cards)
      && (forall c :: c in r ==> c.faction == filter.value)
      && (forall c :: c in cards ==>
            multiset(r)[c] == if c.faction == filter.value then multiset(cards)[c] else 0)
  {
    if filter.None? || (filter.value != "Highlanders" && filter.value != "Keepers") then cards
    else
      FilterSpec(cards, (c: Card) => c.faction == filter.value);
      Filter(cards, (c: Card) => c.faction == filter.value)
  }

  // ---------------------------------------------------------------------
  // Ids and database values
  // ---------------------------------------------------------------------

  /** `normId`: `None` is `null`/`undefined`; otherwise the argument is the
      value's `String(...)` form. */
  function NormId(input: Option<string>): (r: string)
    ensures input.None? ==> r == ""
    ensures input.Some? ==>
      && |r| == Max(8, |input.value|)
      && r[|r| - |input.value|..] == Upper(input.value)
      && (forall i :: 0 <= i < |r| - |input.value| ==> r[i] == '0')
    ensures input.Some? && |input.value| >= 8 ==> r == Upper(input.value)
  {
    match input
    case None => ""
    case Some(v) =>
      var s := Upper(v);
      if |s| < 8 then PadStart(s, 8, '0') else s
  }

  lemma NormIdIdempotent(v: string)
    ensures NormId(Some(NormId(Some(v)))) == NormId(Some(v))
  {
    var s := Upper(v);
    var r := NormId(Some(v));
    forall i | 0 <= i < |r|
      ensures UpperChar(r[i]) == r[i]
    {
      if i < |r| - |v| {
        assert r[i] == '0';
      } else {
        assert r[i] == s[i - (|r| - |v|)];
      }
    }
    assert Upper(r) == r;
  }

  /** What `Number(v)` makes of a database column: `undefined`, `null` (which
      `Number` turns into 0), a finite number, or something non-finite. */
  datatype JsValue = Undefined | Null | Numeric(n: int) | NotFinite

  /** `num(v, fallback)` as written: `Number.isFinite(Number(v)) ? Number(v) :
      fallback`. `Number(null)` is 0, so a `null` column yields 0. */
  function NumAsWritten(v: JsValue, fallback: int): (r: int)
    ensures v.Numeric? ==> r == v.n
    ensures v.Undefined? || v.NotFinite? ==> r == fallback
    ensures v.Null? ==> r == 0
  {
    match v
    case Undefined => fallback
    case Null => 0
    case Numeric(n) => n
    case NotFinite => fallback
  }

  lemma NullColumnLosesFallback()
    ensures NumAsWritten(Null, 30) == 0 && Num(Null, 30) == 30
  {
  }

  /** `num` as intended: a column that holds a number wins, anything else
      (including SQL NULL) falls back to the generated stat. */
  function Num(v: JsValue, fallback: int): (r: int)
    ensures v.Numeric? ==> r == v.n
    ensures !v.Numeric? ==> r == fallback
  {
    if v.Numeric? then v.n else fallback
  }

  /** The two readings of `num` differ on a null column and nowhere else. */
  lemma NumReadingsAgree(v: JsValue, fallback: int)
    ensures v != Null ==> NumAsWritten(v, fallback) == Num(v, fallback)
    ensures NumAsWritten(Null, fallback) == 0 && Num(Null, fallback) == fallback
  {
  }

  /** A row of the `cards` table; `None` is a null or absent column. */
  datatype DbRow = DbRow(
    id: Option<string>, faction: Option<string>, cls: Option<string>, rarity: Option<string>,
    hero_type: Option<string>, heroType: Option<string>,
    attack_type: Option<string>, attackType: Option<string>,
    hp: JsValue, prana: JsValue, focus: JsValue, stamina: JsValue, strength: JsValue,
    intelligence: JsValue, defense: JsValue, speed: JsValue, power: JsValue)
  {
    /** The stat columns in `statsOrder`. */
    function Column(k: nat): JsValue
      requires k < StatCount
    {
      [hp, prana, focus, stamina, strength, intelligence, defense, speed, power][k]
    }
  }

  /** The card the merge builds from a base card and its database row, with
      `num` as written. Every text column falls back with `??`: a present
      column wins, and `hero_type`/`attack_type` win over their camel-case
      spellings. */
  function Overlay(base: Card, db: DbRow): (r: Card)
    ensures r.id == base.id && r.name == base.name && r.image == base.image
    ensures db.cls.Some? ==> r.cls == db.cls.value
    ensures db.cls.None? ==> r.cls == base.cls
    ensures db.rarity.Some? ==> r.rarity == db.rarity.value
    ensures db.rarity.None? ==> r.rarity == base.rarity
    ensures db.faction.Some? ==> r.faction == db.faction.value
    ensures db.faction.None? ==> r.faction == base.faction
    ensures db.hero_type.Some? ==> r.heroType == db.hero_type.value
    ensures db.hero_type.None? && db.heroType.Some? ==> r.heroType == db.heroType.value
    ensures db.hero_type.None? && db.heroType.None? ==> r.heroType == base.heroType
    ensures db.attack_type.Some? ==> r.attackType == db.attack_type.value
    ensures db.attack_type.None? && db.attackType.Some? ==> r.attackType == db.attackType.value
    ensures db.attack_type.None? && db.attackType.None? ==> r.attackType == base.attackType
  {
    base.(
      cls := db.cls.GetOr(base.cls),
      rarity := db.rarity.GetOr(base.rarity),
      heroType := db.hero_type.GetOr(db.heroType.GetOr(base.heroType)),
      attackType := db.attack_type.GetOr(db.attackType.GetOr(base.attackType)),
      faction := db.faction.GetOr(base.faction),
      stats := Stats(
        NumAsWritten(db.hp, base.stats.hp), NumAsWritten(db.prana, base.stats.prana),
        NumAsWritten(db.focus, base.stats.focus), NumAsWritten(db.stamina, base.stats.stamina),
        NumAsWritten(db.strength, base.stats.strength),
        NumAsWritten(db.intelligence, base.stats.intelligence),
        NumAsWritten(db.defense, base.stats.defense), NumAsWritten(db.speed, base.stats.speed),
        NumAsWritten(db.power, base.stats.power)))
  }

  /** Each merged stat as written: a numeric column wins, a null column gives
      0, an absent or non-finite one keeps the same stat of the base card. */
  lemma OverlayStatAsWritten(base: Card, db: DbRow, k: nat)
    requires k < StatCount
    ensures db.Column(k).Numeric? ==> Overlay(base, db).stats.Values()[k] == db.Column(k).n
    ensures db.Column(k).Null? ==> Overlay(base, db).stats.Values()[k] == 0
    ensures db.Column(k).Undefined? || db.Column(k).NotFinite? ==>
      Overlay(base, db).stats.Values()[k] == base.stats.Values()[k]
  {
  }

  /** A row that supplies no column (every stat column absent or non-finite)
      leaves the base card as it is. */
  lemma OverlayEmptyRow(base: Card, id: Option<string>)
    ensures Overlay(base, DbRow(id, None, None, None, None, None, None, None,
                                Undefined, Undefined, Undefined, Undefined, Undefined,
                                Undefined, NotFinite, Undefined, NotFinite)) == base
  {
  }

  /** Applying the same row twice changes nothing more. */
  lemma OverlayIdempotent(base: Card, db: DbRow)
    ensures Overlay(Overlay(base, db), db) == Overlay(base, db)
  {
  }

  /** The stats of the corrected merge: `num` read as intended. */
  function CorrectedStats(base: Stats, db: DbRow): Stats
  {
    Stats(
      Num(db.hp, base.hp), Num(db.prana, base.prana), Num(db.focus, base.focus),
      Num(db.stamina, base.stamina), Num(db.strength, base.strength),
      Num(db.intelligence, base.intelligence), Num(db.defense, base.defense),
      Num(db.speed, base.speed), Num(db.power, base.power))
  }

  /** The merge as evidently intended: the text fields as in `Overlay`, and
      a stat column that holds no number, null included, keeps the base stat. */
  function OverlayCorrected(base: Card, db: DbRow): (r: Card)
    ensures r.id == base.id && r.name == base.name && r.image == base.image
    ensures forall k :: 0 <= k < StatCount ==>
      r.stats.Values()[k] == if db.Column(k).Numeric? then db.Column(k).n else base.stats.Values()[k]
  {
    Overlay(base, db).(stats := CorrectedStats(base.stats, db))
  }

  /** The two merges agree on everything but the stats; on a row without a
      null stat column they agree outright. */
  lemma OverlaysAgree(base: Card, db: DbRow)
    ensures OverlayCorrected(base, db).(stats := base.stats) == Overlay(base, db).(stats := base.stats)
    ensures (forall k :: 0 <= k < StatCount ==> db.Column(k) != Null) ==>
      OverlayCorrected(base, db) == Overlay(base, db)
  {
    if forall k :: 0 <= k < StatCount ==> db.Column(k) != Null {
      var a, b := OverlayCorrected(base, db).stats.Values(), Overlay(base, db).stats.Values();
      forall k | 0 <= k < StatCount
        ensures a[k] == b[k]
      {
        OverlayStatAsWritten(base, db, k);
      }
      assert a == b;
    }
  }

  /** A null stat column: 0 as written, the base stat once corrected. */
  lemma OverlayNullColumn(base: Card, db: DbRow, k: nat)
    requires k < StatCount && db.Column(k).Null?
    ensures Overlay(base, db).stats.Values()[k] == 0
    ensures OverlayCorrected(base, db).stats.Values()[k] == base.stats.Values()[k]
  {
    OverlayStatAsWritten(base, db, k);
  }

  /** The index of the last occurrence of `x` in `s`. */
  function LastIndex(s: seq<string>, x: string): (r: Option<nat>)
    ensures r.None? ==> forall i :: 0 <= i < |s| ==> s[i] != x
    ensures r.Some? ==> r.value < |s| && s[r.value] == x
    ensures r.Some? ==> forall j :: r.value < j < |s| ==> s[j] != x
  {
    if s == [] then None
    else if s[|s| - 1] == x then Some(|s| - 1)
    else LastIndex(s[..|s| - 1], x)
  }

  /** The normalised id of every row. */
  function Keys(rows: seq<DbRow>): (k: seq<string>)
    ensures |k| == |rows|
  {
    seq(|rows|, i requires 0 <= i < |rows| => NormId(rows[i].id))
  }

  /** The row the `dbMap` keeps for `id`: the last row whose normalised id is
      `id`, and none for the empty id. */
  function RowFor(rows: seq<DbRow>, id: string): (r: Option<DbRow>)
    ensures r.None? <==> id == "" || forall i :: 0 <= i < |rows| ==> NormId(rows[i].id) != id
    ensures r.Some? ==> exists i :: (0 <= i < |rows| && r.value == rows[i] && NormId(rows[i].id) == id
                         && forall j :: i < j < |rows| ==> NormId(rows[j].id) != id)
  {
    assert forall i :: 0 <= i < |rows| ==> Keys(rows)[i] == NormId(rows[i].id);
    if id == "" then None
    else match LastIndex(Keys(rows), id)
         case None => None
         case Some(i) => Some(rows[i])
  }

  lemma {:induction false} RowForPrefix(rows: seq<DbRow>, i: nat, id: string)
    requires i < |rows|
    ensures RowFor(rows[..i + 1], id) ==
            if id != "" && NormId(rows[i].id) == id then Some(rows[i]) else RowFor(rows[..i], id)
  {
    assert Keys(rows[..i + 1])[..i] == Keys(rows[..i]);
  }

  /** The loop that fills `dbMap`: rows whose normalised id is empty are
      skipped and a later row replaces an earlier one with the same id. */
  method IndexRows(rows: seq<DbRow>) returns (m: map<string, DbRow>)
    ensures forall id :: id in m <==> RowFor(rows, id).Some?
    ensures forall id :: id in m ==> m[id] == RowFor(rows, id).value
  {
    m := map[];
    for i := 0 to |rows|
      invariant forall id :: id in m <==> RowFor(rows[..i], id).Some?
      invariant forall id :: id in m ==> m[id] == RowFor(rows[..i], id).value
    {
      var id := NormId(rows[i].id);
      if id != "" {
        m := m[id := rows[i]];
      }
      forall k
        ensures RowFor(rows[..i + 1], k) ==
                if k != "" && NormId(rows[i].id) == k then Some(rows[i]) else RowFor(rows[..i], k)
      {
        RowForPrefix(rows, i, k);
      }
    }
    assert rows[..|rows|] == rows;
  }

  /** The `CANONICAL_LIST.map` of the merge: a card with a row gets the
      row's fields, the others stay as generated. */
  function MergeCatalog(base: seq<Card>, db: map<string, DbRow>): (r: seq<Card>)
    ensures |r| == |base|
    ensures forall i :: 0 <= i < |base| ==>
      r[i].id == base[i].id && r[i].name == base[i].name && r[i].image == base[i].image
    ensures forall i :: 0 <= i < |base| && base[i].id !in db ==> r[i] == base[i]
    ensures forall i :: 0 <= i < |base| && base[i].id in db ==> r[i] == Overlay(base[i], db[base[i].id])
  {
    seq(|base|, i requires 0 <= i < |base| =>
      if base[i].id in db then Overlay(base[i], db[base[i].id]) else base[i])
  }

  // ---------------------------------------------------------------------
  // Canonical metadata and generated stats
  // ---------------------------------------------------------------------

  /** `meta(...)`: the canonical record, with the id upper-cased. */
  function Meta(id: string, name: string, faction: Faction, cls: string, rarity: Rarity,
                heroType: string, attackType: string): (r: CanonMeta)
    ensures r.id == Upper(id) && |r.id| == |id|
    ensures r.name == name && r.faction == faction && r.cls == cls
    ensures r.rarity == rarity && r.heroType == heroType && r.attackType == attackType
    ensures |id| >= 8 ==> NormId(Some(r.id)) == r.id
  {
    UpperIdempotent(id);
    CanonMeta(Upper(id), name, faction, cls, rarity, heroType, attackType)
  }

  /** `BUDGET`, the sum every generated stat vector must reach. */
  function Budget(r: Rarity): (b: int)
    ensures 270 <= b <= 345
  {
    match r
    case Common => 270
    case Uncommon => 285
    case Rare => 300
    case Epic => 315
    case Legendary => 330
    case Mythic => 345
  }

  /** The faction `bump` for stat `k` of `statsOrder`. */
  function Bump(f: Faction, k: nat): int
  {
    match f
    case Highlanders => if k == 0 || k == 3 || k == 4 || k == 6 then 2 else 0
    case Keepers => if k == 2 || k == 5 || k == 8 then 2 else 0
  }

  /** The values the first loop of `genStatsFor` pushes:
      `max(10, raw[k] + bump[k])`, where `raw[k]` stands for the rounded
      weighted share plus noise. */
  function InitialStats(f: Faction, raw: seq<int>): (init: seq<int>)
    requires |raw| == StatCount
    ensures |init| == StatCount
    ensures forall k :: 0 <= k < StatCount ==>
      10 <= init[k] && raw[k] + Bump(f, k) <= init[k]
      && (init[k] == 10 || init[k] == raw[k] + Bump(f, k))
  {
    seq(StatCount, k requires 0 <= k < StatCount => Max(10, raw[k] + Bump(f, k)))
  }

  /** The distribution the top-up loop produces by adding one to each stat in
      turn, `d` times. */
  function RoundRobin(init: seq<int>, d: nat): (r: seq<int>)
    requires |init| == StatCount
    ensures |r| == StatCount
  {
    seq(StatCount, k requires 0 <= k < StatCount =>
      init[k] + d / StatCount + if k < d % StatCount then 1 else 0)
  }

  lemma {:induction false} RoundRobinStep(init: seq<int>, d: nat)
    requires |init| == StatCount
    ensures RoundRobin(init, d + 1) == RoundRobin(init, d)[d % StatCount := RoundRobin(init, d)[d % StatCount] + 1]
  {
    var a := RoundRobin(init, d);
    var b := RoundRobin(init, d + 1);
    var j := d % StatCount;
    if j < StatCount - 1 {
      assert (d + 1) / StatCount == d / StatCount && (d + 1) % StatCount == j + 1;
    } else {
      assert (d + 1) / StatCount == d / StatCount + 1 && (d + 1) % StatCount == 0;
    }
    assert forall k :: 0 <= k < StatCount ==> b[k] == a[j := a[j] + 1][k];
  }

  /** The slot the trim loop visited `dd` steps before reaching `i`. */
  function Slot(i: int, dd: int): nat
  {
    (i - dd) % StatCount
  }

  /** Nine consecutive steps visit every slot. */
  lemma CoverResidues(i: int, k: nat)
    requires k < StatCount
    ensures exists dd :: 1 <= dd <= StatCount && Slot(i, dd) == k
  {
    var dd := (i - k) % StatCount;
    if dd == 0 {
      assert Slot(i, StatCount) == k;
    } else {
      assert Slot(i, dd) == k;
    }
  }

  /** `genStatsFor` without its floating-point part: push the initial
      values, then let the two loops meet the budget. */
  method GenStatsFor(meta: CanonMeta, raw: seq<int>) returns (stats: Stats)
    requires |raw| == StatCount
    ensures forall k :: 0 <= k < StatCount ==> stats.Values()[k] >= 10
    ensures Sum(stats.Values()) == Budget(meta.rarity)
    ensures var init := InitialStats(meta.faction, raw);
      Sum(init) <= Budget(meta.rarity) ==> stats.Values() == RoundRobin(init, Budget(meta.rarity) - Sum(init))
    ensures var init := InitialStats(meta.faction, raw);
      Sum(init) >= Budget(meta.rarity) ==> forall k :: 0 <= k < StatCount ==> stats.Values()[k] <= init[k]
  {
    var budget := Budget(meta.rarity);
    ghost var init := InitialStats(meta.faction, raw);
    var arr: seq<int> := [];
    var remain := budget;
    for i := 0 to StatCount
      invariant arr == init[..i]
      invariant remain == budget - Sum(arr)
    {
      var val := Max(10, raw[i] + Bump(meta.faction, i));
      SumAppend(arr, val);
      arr := arr + [val];
      remain := remain - val;
    }
    assert arr == init;
    var i;
    arr, remain, i := TopUp(arr, remain, budget);
    if remain < 0 {
      arr := Trim(arr, remain, i, budget);
    }
    if Sum(init) == budget {
      assert forall k :: 0 <= k < StatCount ==> RoundRobin(init, 0)[k] == init[k];
    }
    stats := StatsFrom(arr);
  }

  /** `while (remain > 0) { arr[i % arr.length]++; remain--; i++; }` */
  method TopUp(init: seq<int>, remain0: int, ghost budget: int) returns (arr: seq<int>, remain: int, i: nat)
    requires |init| == StatCount && remain0 == budget - Sum(init)
    ensures |arr| == StatCount && remain == budget - Sum(arr)
    ensures remain0 > 0 ==> remain == 0 && i == remain0 && arr == RoundRobin(init, remain0)
    ensures remain0 <= 0 ==> remain == remain0 && i == 0 && arr == init
  {
    arr, remain, i := init, remain0, 0;
    while remain > 0
      invariant |arr| == StatCount && remain == budget - Sum(arr)
      invariant remain0 > 0 ==> 0 <= remain && i + remain == remain0 && arr == RoundRobin(init, i)
      invariant remain0 <= 0 ==> i == 0 && arr == init && remain == remain0
      decreases remain
    {
      if i == 0 {
        assert forall k :: 0 <= k < StatCount ==> RoundRobin(init, 0)[k] == init[k];
      }
      SumUpdate(arr, i % StatCount, arr[i % StatCount] + 1);
      RoundRobinStep(init, i);
      arr := arr[i % StatCount := arr[i % StatCount] + 1];
      remain := remain - 1;
      i := i + 1;
    }
  }

  /** `while (remain < 0) { const j = (i++) % arr.length; if (arr[j] > 10)
      { arr[j]--; remain++; } }`. It ends because some stat is above 10 as
      long as the sum exceeds a budget of at least 90. */
  method Trim(arr0: seq<int>, remain0: int, i0: int, ghost budget: int) returns (arr: seq<int>)
    requires |arr0| == StatCount && remain0 == budget - Sum(arr0) && remain0 <= 0
    requires budget >= 10 * StatCount
    requires forall k :: 0 <= k < StatCount ==> arr0[k] >= 10
    ensures |arr| == StatCount && Sum(arr) == budget
    ensures forall k :: 0 <= k < StatCount ==> 10 <= arr[k] <= arr0[k]
  {
    arr := arr0;
    var remain, i := remain0, i0;
    ghost var fails := 0;
    while remain < 0
      invariant |arr| == StatCount && remain == budget - Sum(arr) && remain <= 0
      invariant forall k :: 0 <= k < StatCount ==> 10 <= arr[k] <= arr0[k]
      invariant 0 <= fails < StatCount
      invariant forall dd :: 1 <= dd <= fails ==> arr[Slot(i, dd)] == 10
      decreases -remain, StatCount - fails
    {
      var j := i % StatCount;
      i := i + 1;
      if arr[j] > 10 {
        SumUpdate(arr, j, arr[j] - 1);
        arr := arr[j := arr[j] - 1];
        remain := remain + 1;
        fails := 0;
      } else {
        ghost var before := fails;
        fails := fails + 1;
        forall dd | 1 <= dd <= fails
          ensures arr[Slot(i, dd)] == 10
        {
          if dd > 1 {
            assert Slot(i, dd) == Slot(i - 1, dd - 1);
          }
        }
        if fails == StatCount {
          forall k | 0 <= k < StatCount
            ensures arr[k] <= 10
          {
            CoverResidues(i, k);
          }
          SumAtMost(arr, 10);
          assert false;
        }
      }
    }
  }

  /** What every generated stat vector satisfies. */
  predicate WellFormedStats(s: Stats, r: Rarity)
  {
    (forall k :: 0 <= k < StatCount ==> s.Values()[k] >= 10) && Sum(s.Values()) == Budget(r)
  }

  function ImagePath(id: string): string
  {
    "/images/" + id + ".png"
  }

  /** A canonical entry turned into a card with the given stats. */
  function BaseCard(c: CanonMeta, s: Stats): Card
  {
    Card(c.id, c.name, FactionName(c.faction), c.cls, RarityName(c.rarity),
         c.heroType, c.attackType, ImagePath(c.id), s)
  }

  /** `synthesizeAll`: one generated card per canonical entry, in order.
      `raws[i]` holds the rounded weighted shares plus noise of entry `i`. */
  method SynthesizeAll(list: seq<CanonMeta>, raws: seq<seq<int>>) returns (cards: seq<Card>)
    requires |raws| == |list|
    requires forall i :: 0 <= i < |raws| ==> |raws[i]| == StatCount
    ensures |cards| == |list|
    ensures forall i :: 0 <= i < |list| ==>
      cards[i] == BaseCard(list[i], cards[i].stats) && WellFormedStats(cards[i].stats, list[i].rarity)
  {
    cards := [];
    for i := 0 to |list|
      invariant |cards| == i
      invariant forall k :: 0 <= k < i ==>
        cards[k] == BaseCard(list[k], cards[k].stats) && WellFormedStats(cards[k].stats, list[k].rarity)
    {
      var s := GenStatsFor(list[i], raws[i]);
      cards := cards + [BaseCard(list[i], s)];
    }
  }

  /** The outcome of the database query. */
  datatype DbFetch =
    | NotConfigured            // the Supabase URL or key is missing
    | FetchFailed              // an error, no data, or an exception
    | Fetched(rows: seq<DbRow>)

  predicate UsesRows(db: DbFetch)
  {
    db.Fetched? && |db.rows| > 0
  }

  /** The catalog `GET` builds before filtering: the generated canonical
      cards, merged with the database rows when there are any. */
  method BuildCatalog(raws: seq<seq<int>>, db: DbFetch) returns (cards: seq<Card>, ghost base: seq<Card>)
    requires |raws| == |CanonicalList|
    requires forall i :: 0 <= i < |raws| ==> |raws[i]| == StatCount
    ensures |base| == |cards| == |CanonicalList|
    ensures forall i :: 0 <= i < |CanonicalList| ==>
      && base[i] == BaseCard(CanonicalList[i], base[i].stats)
      && WellFormedStats(base[i].stats, CanonicalList[i].rarity)
      && cards[i].id == CanonicalList[i].id && cards[i].name == CanonicalList[i].name
      && cards[i].image == ImagePath(CanonicalList[i].id)
    ensures !UsesRows(db) ==> cards == base
    ensures UsesRows(db) ==> forall i :: 0 <= i < |CanonicalList| ==>
      cards[i] == match RowFor(db.rows, CanonicalList[i].id)
                  case None => base[i]
                  case Some(row) => Overlay(base[i], row)
  {
    cards := SynthesizeAll(CanonicalList, raws);
    base := cards;
    if UsesRows(db) {
      var m := IndexRows(db.rows);
      cards := MergeCatalog(cards, m);
    }
  }

  // ---------------------------------------------------------------------
  // The deck
  // ---------------------------------------------------------------------

  /** `shuffle(filtered).slice(0, size)` */
  method Deal(filtered: seq<Card>, size: nat, rolls: seq<real>) returns (deck: seq<Card>)
    requires |filtered| <= |rolls|
    requires forall k :: 0 <= k < |rolls| ==> 0.0 <= rolls[k] < 1.0
    ensures |deck| == Min(size, |filtered|)
    ensures multiset(deck) <= multiset(filtered)
  {
    var shuffled := Shuffle(filtered, rolls);
    var n := Min(size, |shuffled|);
    assert shuffled == shuffled[..n] + shuffled[n..];
    deck := shuffled[..n];
  }

  datatype Response =
    | PlainArray(deck: seq<Card>)
    | DeckAndTotal(deck: seq<Card>, total: nat)

  /** `GET /api/cards` with its query parameters: build the catalog, apply
      the faction filter, deal a deck, answer in the requested format. The
      catch block builds the same answer from the generated catalog, which is
      the `FetchFailed` case here. */
  method Get(format: Option<string>, faction: Option<string>, size: Option<int>, db: DbFetch,
             raws: seq<seq<int>>, rolls: seq<real>)
    returns (resp: Response, ghost catalog: seq<Card>, ghost filtered: seq<Card>, ghost base: seq<Card>)
    requires |raws| == |CanonicalList|
    requires forall i :: 0 <= i < |raws| ==> |raws[i]| == StatCount
    requires |CanonicalList| <= |rolls|
    requires forall k :: 0 <= k < |rolls| ==> 0.0 <= rolls[k] < 1.0
    ensures |base| == |catalog| == |CanonicalList|
    ensures forall i :: 0 <= i < |CanonicalList| ==>
      && base[i] == BaseCard(CanonicalList[i], base[i].stats)
      && WellFormedStats(base[i].stats, CanonicalList[i].rarity)
      && catalog[i].id == CanonicalList[i].id && catalog[i].name == CanonicalList[i].name
      && catalog[i].image == ImagePath(CanonicalList[i].id)
    ensures !UsesRows(db) ==> catalog == base
    ensures UsesRows(db) ==> forall i :: 0 <= i < |CanonicalList| ==>
      catalog[i] == match RowFor(db.rows, CanonicalList[i].id)
                    case None => base[i]
                    case Some(row) => Overlay(base[i], row)
    ensures filtered == ApplyFactionFilter(catalog, faction)
    ensures resp.DeckAndTotal? <==> WantsObject(format)
    ensures |resp.deck| == Min(DeckSize(size), |filtered|)
    ensures multiset(resp.deck) <= multiset(filtered)
    ensures resp.DeckAndTotal? ==> resp.total == |filtered|
  {
    var cards;
    cards, base := BuildCatalog(raws, db);
    var kept := ApplyFactionFilter(cards, faction);
    var deck := Deal(kept, DeckSize(size), rolls);
    if WantsObject(format) {
      resp := DeckAndTotal(deck, |kept|);
    } else {
      resp := PlainArray(deck);
    }
    catalog, filtered := cards, kept;
  }

  // ---------------------------------------------------------------------
  // The canonical list
  // ---------------------------------------------------------------------

  /** `CANONICAL_LIST` */
  const CanonicalList: seq<CanonMeta> :=
    [
      Meta("00000001", "Highlands Stable Boy", Highlanders, "Warrior", Common, "Tank", "Physical"),
      Meta("00000002", "Highlands Stable Master", Highlanders, "Warrior", Uncommon, "Tank", "Physical"),
      Meta("00000003", "Highlands Horseman", Highlanders, "Warrior", Rare, "DPS", "Physical"),
      Meta("00000004", "Highlands Master Horseman", Highlanders, "Warrior", Epic, "Hybrid", "Physical"),
      Meta("00000005", "Highlands Student", Highlanders, "Mage", Common, "DPS", "Magical"),
      Meta("00000006", "Highlands Academic", Highlanders, "Mage", Uncommon, "DPS", "Magical"),
      Meta("00000007", "Highlands Professor", Highlanders, "Mage", Rare, "Specialist", "Magical"),
      Meta("00000008", "Highlands Scholar", Highlanders, "Healer", Common, "Support", "Divine"),
      Meta("00000009", "Highlands Medic", Highlanders, "Healer", Uncommon, "Support", "Divine"),
      Meta("0000000A", "Highlands Surgeon", Highlanders, "Healer", Rare, "Support", "Divine"),
      Meta("0000000B", "Highlands Priest", Highlanders, "Healer", Epic, "Support", "Divine"),
      Meta("0000000C", "Highlands Pope", Highlanders, "Healer", Legendary, "Support", "Divine"),
      Meta("0000000D", "Highlands Slinger", Highlanders, "Sharpshooter", Common, "DPS", "Physical"),
      Meta("0000000E", "Highlands Archer", Highlanders, "Sharpshooter", Uncommon, "DPS", "Physical"),
      Meta("0000000F", "Highlands Hitman", Highlanders, "Sharpshooter", Rare, "DPS", "Physical"),
      Meta("00000010", "Highlands Spy", Highlanders, "Sharpshooter", Epic, "Specialist", "Mental"),
      Meta("00000021", "Highlands Commander", Highlanders, "Champion", Legendary, "Hybrid", "Physical"),
      Meta("00000022", "Highlands Mentalist", Highlanders, "Champion", Legendary, "Specialist", "Mental"),
      Meta("00000023", "Highlands Forrester", Highlanders, "Champion", Legendary, "Hybrid", "Elemental"),
      Meta("00000024", "Heathcliff - King of the Highlands", Highlanders, "Guardian", Mythic, "Hybrid", "Physical"),
      Meta("00000025", "Doogen Howzit - Chief Doctor of the Highlands", Highlanders, "Guardian", Mythic, "Support", "Divine"),
      Meta("00000026", "Elijah Forester - The High Priest of the Highlands", Highlanders, "Guardian", Mythic, "Support", "Divine"),
      Meta("00000027", "Supreme Knight of the Highlands - Sir Caerlon Saddler", Highlanders, "Guardian", Mythic, "Tank", "Physical"),
      Meta("00000028", "Brick “Ironshoe” Davidson - The Grand Equestrian of the Highlands", Highlanders, "Guardian", Mythic, "DPS", "Physical"),
      Meta("00000029", "Edward McCallister - Dean of the Highlands", Highlanders, "Guardian", Mythic, "Specialist", "Mental"),
      Meta("0000002A", "Marshall Westborough - Scout of the Highlands", Highlanders, "Guardian", Mythic, "DPS", "Physical"),
      Meta("0000002B", "Unknown of the Highlands", Highlanders, "Guardian", Mythic, "Hybrid", "Elemental"),
      Meta("00000011", "Skeleton Remains of the Crypt", Keepers, "Warrior", Common, "Tank", "Physical"),
      Meta("00000012", "Bone Marrow of the Crypt", Keepers, "Warrior", Uncommon, "Tank", "Physical"),
      Meta("00000013", "Bone Soldier of the Crypt", Keepers, "Warrior", Rare, "DPS", "Physical"),
      Meta("00000014", "Bone General of the Crypt", Keepers, "Warrior", Epic, "Hybrid", "Physical"),
      Meta("00000015", "Skeleton Occultist of the Crypt", Keepers, "Mage", Common, "DPS", "Magical"),
      Meta("00000016", "Bone Lich of the Crypt", Keepers, "Mage", Uncommon, "Specialist", "Magical"),
      Meta("00000017", "Cabalist of the Crypt", Keepers, "Mage", Rare, "Specialist", "Mental"),
      Meta("00000018", "Necromancer of the Crypt", Keepers, "Mage", Epic, "Specialist", "Magical"),
      Meta("00000019", "Apparition of the Crypt", Keepers, "Support", Common, "Support", "Mental"),
      Meta("0000001A", "Poltergeist of the Crypt", Keepers, "Support", Uncommon, "Support", "Mental"),
      Meta("0000001B", "Banshee of the Crypt", Keepers, "Support", Rare, "Support", "Mental"),
      Meta("0000001C", "Tainted of the Crypt", Keepers, "Sharpshooter", Common, "DPS", "Poison"),
      Meta("0000001D", "Vampire of the Crypt", Keepers, "Sharpshooter", Uncommon, "DPS", "Physical"),
      Meta("0000001E", "Vampire Lord of the Crypt", Keepers, "Sharpshooter", Rare, "DPS", "Physical"),
      Meta("0000001F", "Werewolf of the Crypt", Keepers, "Sharpshooter", Uncommon, "DPS", "Physical"),
      Meta("00000020", "Lycanthrope of the Crypt", Keepers, "Sharpshooter", Rare, "DPS", "Physical"),
      Meta("0000002C", "Skeleton Prince of the Crypt", Keepers, "Champion", Legendary, "Hybrid", "Physical"),
      Meta("0000002D", "Skull Magician of the Crypt (redone correctly)", Keepers, "Champion", Legendary, "Specialist", "Magical"),
      Meta("0000002E", "Bone Archer of the Crypt", Keepers, "Champion", Legendary, "DPS", "Physical"),
      Meta("0000002F", "Charles Jameson - Skeleton King of the Crypt", Keepers, "Guardian", Mythic, "Hybrid", "Physical"),
      Meta("00000030", "Furusiyya – The Bone General of the Crypt", Keepers, "Guardian", Mythic, "Tank", "Physical"),
      Meta("00000031", "Mekubbal – The Skeletal Cabalist of the Crypt", Keepers, "Guardian", Mythic, "Specialist", "Mental"),
      Meta("00000032", "Soriben – The Skeletal Necromancer of the Crypt", Keepers, "Guardian", Mythic, "Specialist", "Magical"),
      Meta("00000033", "Bram – Vampire Lord of the Crypt", Keepers, "Guardian", Mythic, "DPS", "Physical"),
      Meta("00000034", "Jay Cub – The Frenzied Lycanthrope of the Crypt", Keepers, "Guardian", Mythic, "DPS", "Physical"),
      Meta("00000035", "Caroline McNancy – The Hallowed Banshee of the Crypt", Keepers, "Guardian", Mythic, "Support", "Mental"),
      Meta("00000036", "Simon Peter - The Exalted Reborn of the Crypt", Keepers, "Guardian", Mythic, "Hybrid", "Divine")
    ]

}
