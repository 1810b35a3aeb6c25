/** Ship skins (`skin_system.py`): six skins, unlocked by player level or prestige, one of
    them selected; the rainbow skin cycles its hue and the dragon skin leaves a fading trail.
    The skin dictionary is a map from id to the skin's fixed data plus the iteration order of
    its keys; the `unlocked` flags live in one set, since they are the only part that changes.
    Both settings the system writes (`selected_skin`, `unlocked_skins`) are keys the save's
    settings do not hold, so the save drops them and every new system starts from the
    classic skin alone. */
module Skins {
  import opened Common
  import SaveSystem

  /** The fixed part of one entry of the skin dictionary (name and description are display
      text and left out). */
  datatype Skin = Skin(
    color: Option<Color>,
    unlockLevel: Option<int>,
    unlockPrestige: Option<int>,
    alpha: Option<int>,
    trail: bool,
    glow: bool)

  /** The skin dictionary of `__init__`. */
  const Skins: map<string, Skin> := map[
    "classic" := Skin(Some(Color(100, 200, 255)), None, None, None, false, false),
    "gold" := Skin(Some(Color(255, 215, 0)), Some(10), None, None, false, false),
    "rainbow" := Skin(None, Some(20), None, None, false, false),
    "ghost" := Skin(Some(Color(150, 150, 255)), Some(30), None, Some(180), false, false),
    "dragon" := Skin(Some(Color(255, 50, 0)), Some(40), None, None, true, false),
    "prestige" := Skin(Some(Color(255, 100, 255)), None, Some(1), None, false, true)
  ]

  /** The insertion order of the dictionary, which is the order `check_unlocks` visits. */
  const Order: seq<string> := ["classic", "gold", "rainbow", "ghost", "dragon", "prestige"]

  predicate Distinct<T(==)>(s: seq<T>)
  {
    forall i, j :: 0 <= i < j < |s| ==> s[i] != s[j]
  }

  /** The order lists every key exactly once, and no skin has both unlock conditions. */
  lemma OrderListsKeys()
    ensures Distinct(Order)
    ensures forall id :: id in Order <==> id in Skins
    ensures forall id :: id in Skins ==> Skins[id].unlockLevel.None? || Skins[id].unlockPrestige.None?
  {
  }

  // ---------------------------------------------------------------------------
  // check_unlocks
  // ---------------------------------------------------------------------------

  predicate LevelReached(skin: Skin, playerLevel: int)
  {
    skin.unlockLevel.Some? && playerLevel >= skin.unlockLevel.value
  }

  predicate PrestigeReached(skin: Skin, prestigeLevel: int)
  {
    skin.unlockPrestige.Some? && prestigeLevel >= skin.unlockPrestige.value
  }

  /** What one locked skin adds to `newly_unlocked`: its id once per condition it meets. */
  function Gain(id: string, unlocked: set<string>, playerLevel: int, prestigeLevel: int): (r: seq<string>)
    requires id in Skins
    ensures forall x :: x in r ==> x == id
    ensures r != [] <==> id !in unlocked && (LevelReached(Skins[id], playerLevel) || PrestigeReached(Skins[id], prestigeLevel))
  {
    if id in unlocked then []
    else
      (if LevelReached(Skins[id], playerLevel) then [id] else [])
      + (if PrestigeReached(Skins[id], prestigeLevel) then [id] else [])
  }

  /** `newly_unlocked` after visiting `ids` in order, against the flags held before the call. */
  function Newly(ids: seq<string>, unlocked: set<string>, playerLevel: int, prestigeLevel: int): seq<string>
    requires forall x :: x in ids ==> x in Skins
  {
    if ids == [] then []
    else
      Newly(ids[..|ids| - 1], unlocked, playerLevel, prestigeLevel)
      + Gain(ids[|ids| - 1], unlocked, playerLevel, prestigeLevel)
  }

  function Elems(s: seq<string>): set<string>
  {
    set x | x in s
  }

  /** A skin is newly unlocked exactly when it is visited, was locked and meets one of its
      conditions. */
  lemma {:induction false} NewlyExact(ids: seq<string>, unlocked: set<string>, playerLevel: int, prestigeLevel: int)
    requires forall x :: x in ids ==> x in Skins
    ensures forall id :: id in Newly(ids, unlocked, playerLevel, prestigeLevel) <==>
      (id in ids && id !in unlocked && (LevelReached(Skins[id], playerLevel) || PrestigeReached(Skins[id], prestigeLevel)))
  {
    if ids != [] {
      var init := ids[..|ids| - 1];
      NewlyExact(init, unlocked, playerLevel, prestigeLevel);
      forall id
        ensures id in Newly(ids, unlocked, playerLevel, prestigeLevel) <==>
          (id in ids && id !in unlocked && (LevelReached(Skins[id], playerLevel) || PrestigeReached(Skins[id], prestigeLevel)))
      {
        assert ids == init + [ids[|ids| - 1]];
      }
    }
  }

  /** With distinct ids and no skin holding both conditions, no id is reported twice. */
  lemma {:induction false} NewlyDistinct(ids: seq<string>, unlocked: set<string>, playerLevel: int, prestigeLevel: int)
    requires forall x :: x in ids ==> x in Skins
    requires Distinct(ids)
    ensures Distinct(Newly(ids, unlocked, playerLevel, prestigeLevel))
  {
    if ids != [] {
      var init := ids[..|ids| - 1];
      var last := ids[|ids| - 1];
      OrderListsKeys();
      NewlyDistinct(init, unlocked, playerLevel, prestigeLevel);
      NewlyExact(init, unlocked, playerLevel, prestigeLevel);
      var front := Newly(init, unlocked, playerLevel, prestigeLevel);
      var g := Gain(last, unlocked, playerLevel, prestigeLevel);
      assert |g| <= 1;
      assert forall k :: 0 <= k < |init| ==> init[k] == ids[k];
      assert last !in init;
      assert last !in front;
      var r := front + g;
      forall i, j | 0 <= i < j < |r|
        ensures r[i] != r[j]
      {
        if j >= |front| {
          assert r[j] == last;
          assert r[i] in front;
        }
      }
    }
  }

  lemma EmptyWithoutMembers(s: seq<string>)
    ensures (forall x :: x !in s) ==> s == []
  {
    if s != [] {
      assert s[0] in s;
    }
  }

  /** A second check with the same levels finds nothing new. */
  lemma CheckUnlocksIdempotent(unlocked: set<string>, playerLevel: int, prestigeLevel: int)
    ensures var newly := Newly(Order, unlocked, playerLevel, prestigeLevel);
      Newly(Order, unlocked + Elems(newly), playerLevel, prestigeLevel) == []
  {
    OrderListsKeys();
    var newly := Newly(Order, unlocked, playerLevel, prestigeLevel);
    var after := unlocked + Elems(newly);
    NewlyExact(Order, unlocked, playerLevel, prestigeLevel);
    NewlyExact(Order, after, playerLevel, prestigeLevel);
    EmptyWithoutMembers(Newly(Order, after, playerLevel, prestigeLevel));
  }

  /** Reaching a higher level or prestige never unlocks fewer skins. */
  lemma UnlocksMonotone(unlocked: set<string>, l1: int, p1: int, l2: int, p2: int)
    requires l1 <= l2 && p1 <= p2
    ensures Elems(Newly(Order, unlocked, l1, p1)) <= Elems(Newly(Order, unlocked, l2, p2))
  {
    OrderListsKeys();
    NewlyExact(Order, unlocked, l1, p1);
    NewlyExact(Order, unlocked, l2, p2);
  }

  /** The ids, in dictionary order, of the unlocked skins (`unlocked_list`). */
  function UnlockedList(ids: seq<string>, unlocked: set<string>): (r: seq<string>)
    ensures forall x :: x in r <==> x in ids && x in unlocked
  {
    if ids == [] then []
    else (if ids[0] in unlocked then [ids[0]] else []) + UnlockedList(ids[1..], unlocked)
  }

  function AsTextList(ids: seq<string>): (v: SaveSystem.Value)
    ensures v.List? && |v.items| == |ids|
  {
    SaveSystem.List(seq(|ids|, k requires 0 <= k < |ids| => SaveSystem.Text(ids[k])))
  }

  // ---------------------------------------------------------------------------
  // hsv_to_rgb
  // ---------------------------------------------------------------------------

  /** `int(x * 255)`: one colour channel. */
  function Channel(x: real): (c: int)
    ensures 0.0 <= x <= 1.0 ==> 0 <= c <= 255
  {
    Trunc(x * 255.0)
  }

  /** `hsv_to_rgb(h, s, v)`: the sector `int(h / 60) % 6` picks which of v, p, q, t goes to
      each channel. One channel always carries the value v. */
  function HsvToRgb(h: real, s: real, v: real): (c: Color)
    ensures c.r == Channel(v) || c.g == Channel(v) || c.b == Channel(v)
  {
    var hh := h / 360.0;
    var i := Trunc(hh * 6.0);
    var f := hh * 6.0 - i as real;
    Sector(i % 6, v, Scale(v, 1.0, s), Scale(v, f, s), Scale(v, 1.0 - f, s))
  }

  /** `v * (1 - a * s)`: p, q and t of the conversion, with a = 1, f and 1 - f. */
  function Scale(v: real, a: real, s: real): real
  {
    v * (1.0 - a * s)
  }

  /** The channel assignment of the six hue sectors. */
  function Sector(sector: int, v: real, p: real, q: real, t: real): (c: Color)
    ensures c.r == Channel(v) || c.g == Channel(v) || c.b == Channel(v)
  {
    if sector == 0 then Color(Channel(v), Channel(t), Channel(p))
    else if sector == 1 then Color(Channel(q), Channel(v), Channel(p))
    else if sector == 2 then Color(Channel(p), Channel(v), Channel(t))
    else if sector == 3 then Color(Channel(p), Channel(q), Channel(v))
    else if sector == 4 then Color(Channel(t), Channel(p), Channel(v))
    else Color(Channel(v), Channel(p), Channel(q))
  }

  predicate InByteRange(c: Color)
  {
    0 <= c.r <= 255 && 0 <= c.g <= 255 && 0 <= c.b <= 255
  }

  /** `v * (1 - a * s)` stays in [0, 1] when all three factors do. */
  lemma ScaledComplement(v: real, a: real, s: real)
    requires 0.0 <= v <= 1.0 && 0.0 <= a <= 1.0 && 0.0 <= s <= 1.0
    ensures 0.0 <= Scale(v, a, s) <= 1.0
  {
    MulUnit(a, s);
    MulUnit(v, 1.0 - a * s);
  }

  /** For a non-negative hue and saturation and value in [0, 1], every channel is a byte. */
  lemma HsvToRgbInRange(h: real, s: real, v: real)
    requires h >= 0.0 && 0.0 <= s <= 1.0 && 0.0 <= v <= 1.0
    ensures InByteRange(HsvToRgb(h, s, v))
  {
    var hh := h / 360.0;
    var i := Trunc(hh * 6.0);
    var f := hh * 6.0 - i as real;
    assert 0.0 <= f < 1.0;
    ScaledComplement(v, 1.0, s);
    ScaledComplement(v, f, s);
    ScaledComplement(v, 1.0 - f, s);
  }

  /** Zero saturation gives a grey: all three channels equal `int(v * 255)`. */
  lemma HsvGrey(h: real, v: real)
    ensures var c := HsvToRgb(h, 0.0, v); c.r == c.g == c.b == Channel(v)
  {
    var hh := h / 360.0;
    var f := hh * 6.0 - Trunc(hh * 6.0) as real;
    assert f * 0.0 == 0.0 && (1.0 - f) * 0.0 == 0.0;
    assert Scale(v, 1.0, 0.0) == Scale(v, f, 0.0) == Scale(v, 1.0 - f, 0.0) == v;
  }

  // ---------------------------------------------------------------------------
  // Rainbow hue
  // ---------------------------------------------------------------------------

  const HueStep: int := 2

  /** The hue after one `get_skin_color` call on the rainbow skin. */
  function NextHue(hue: int): (r: int)
    ensures 0 <= r < 360
  {
    (hue + HueStep) % 360
  }

  /** The hue after n calls. */
  function HueAfter(hue: int, n: nat): int
  {
    if n == 0 then hue else NextHue(HueAfter(hue, n - 1))
  }

  lemma ModShift(a: int)
    ensures (a % 360 + 2) % 360 == (a + 2) % 360
  {
    var q := a / 360;
    assert a == 360 * q + a % 360;
    DivModUnique(a + 2, 360, q + (a % 360 + 2) / 360, (a % 360 + 2) % 360);
  }

  /** n calls advance the hue by 2n degrees, modulo 360. */
  lemma {:induction false} HueAfterClosed(hue: int, n: nat)
    requires 0 <= hue < 360
    ensures HueAfter(hue, n) == (hue + 2 * n) % 360
  {
    if n > 0 {
      HueAfterClosed(hue, n - 1);
      ModShift(hue + 2 * (n - 1));
    }
  }

  /** 180 calls bring the rainbow back to the hue it started from. */
  lemma HueCycle(hue: int)
    requires 0 <= hue < 360
    ensures HueAfter(hue, 180) == hue
  {
    HueAfterClosed(hue, 180);
    DivModUnique(hue + 2 * 180, 360, 1, hue);
  }

  // ---------------------------------------------------------------------------
  // Dragon trail
  // ---------------------------------------------------------------------------

  const TrailLimit: nat := 20

  /** One trail entry: position, alpha and size. */
  datatype Particle = Particle(pos: Point, alpha: int, size: int)

  /** The per-update fade of one entry. */
  function Fade(p: Particle): (r: Particle)
    ensures r.pos == p.pos && r.alpha == p.alpha - 15 && r.size == p.size - 1
  {
    p.(alpha := p.alpha - 15, size := p.size - 1)
  }

  /** Each entry's alpha and size record its age: the newest entry has been faded once, and
      every older one once more per position. */
  ghost predicate Aged(trail: seq<Particle>)
  {
    forall k :: 0 <= k < |trail| ==>
      trail[k].alpha == 240 - 15 * (|trail| - 1 - k) && trail[k].size == 19 - (|trail| - 1 - k)
  }

  /** The whole `update_trail` step for the dragon skin. */
  function Faded(trail: seq<Particle>, position: Point): (r: seq<Particle>)
    requires |trail| <= TrailLimit
    ensures |r| <= TrailLimit && r != []
    ensures r[|r| - 1] == Particle(position, 240, 19)
  {
    var pushed := PushBounded(trail, Particle(position, 255, 20), TrailLimit);
    seq(|pushed|, k requires 0 <= k < |pushed| => Fade(pushed[k]))
  }

  /** The trail keeps its age pattern through every update. */
  lemma FadedStaysAged(trail: seq<Particle>, position: Point)
    requires |trail| <= TrailLimit && Aged(trail)
    ensures Aged(Faded(trail, position))
  {
    var pushed := PushBounded(trail, Particle(position, 255, 20), TrailLimit);
    var r := Faded(trail, position);
    forall k | 0 <= k < |r|
      ensures r[k].alpha == 240 - 15 * (|r| - 1 - k) && r[k].size == 19 - (|r| - 1 - k)
    {
      if k < |r| - 1 {
        var j := if |trail| == TrailLimit then k + 1 else k;
        assert pushed[k] == trail[j];
      }
    }
  }

  /** An entry is still drawn (positive alpha and size) exactly while it is among the 16
      newest. */
  lemma VisibleEntries(trail: seq<Particle>, k: int)
    requires Aged(trail) && 0 <= k < |trail|
    ensures trail[k].alpha > 0 && trail[k].size > 0 <==> |trail| - 1 - k < 16
  {
  }

  /** The fading loop: each entry loses 15 alpha and 1 size. */
  method FadeAll(ps: seq<Particle>) returns (r: seq<Particle>)
    ensures |r| == |ps| && forall k :: 0 <= k < |ps| ==> r[k] == Fade(ps[k])
  {
    r := ps;
    for k := 0 to |r|
      invariant |r| == |ps|
      invariant forall j :: 0 <= j < |ps| ==> r[j] == (if j < k then Fade(ps[j]) else ps[j])
    {
      r := r[k := Fade(r[k])];
    }
  }

  // ---------------------------------------------------------------------------
  // The skin system
  // ---------------------------------------------------------------------------

  function Count(ids: seq<string>, unlocked: set<string>): (n: nat)
    ensures n <= |ids|
  {
    if ids == [] then 0
    else (if ids[0] in unlocked then 1 else 0) + Count(ids[1..], unlocked)
  }

  lemma {:induction false} CountFindsMember(ids: seq<string>, unlocked: set<string>, x: string)
    requires x in ids && x in unlocked
    ensures Count(ids, unlocked) >= 1
  {
    if ids[0] != x {
      CountFindsMember(ids[1..], unlocked, x);
    }
  }

  /** One round of the loop of `check_unlocks`: a locked skin is unlocked by its level
      condition and again by its prestige condition. */
  method VisitSkin(id: string, unlocked: set<string>, playerLevel: int, prestigeLevel: int)
    returns (gained: seq<string>, after: set<string>)
    requires id in Skins
    ensures gained == Gain(id, unlocked, playerLevel, prestigeLevel)
    ensures after == unlocked + Elems(gained)
  {
    var skin := Skins[id];
    gained := [];
    after := unlocked;
    if id !in unlocked {
      if skin.unlockLevel.Some? && playerLevel >= skin.unlockLevel.value {
        after := after + {id};
        gained := gained + [id];
      }
      if skin.unlockPrestige.Some? && prestigeLevel >= skin.unlockPrestige.value {
        after := after + {id};
        gained := gained + [id];
      }
    }
  }

  /** One round of the pass: the skin visited is not among those the pass has already
      unlocked, so testing it against the running set is testing it against the set the
      pass started from. */
  lemma PassStep(ids: seq<string>, i: int, unlocked: set<string>, playerLevel: int, prestigeLevel: int)
    requires Distinct(ids) && forall x :: x in ids ==> x in Skins
    requires 0 <= i < |ids|
    ensures ids[i] in unlocked + Elems(Newly(ids[..i], unlocked, playerLevel, prestigeLevel)) <==> ids[i] in unlocked
    ensures Newly(ids[..i + 1], unlocked, playerLevel, prestigeLevel)
      == Newly(ids[..i], unlocked, playerLevel, prestigeLevel) + Gain(ids[i], unlocked, playerLevel, prestigeLevel)
  {
    NewlyExact(ids[..i], unlocked, playerLevel, prestigeLevel);
    assert ids[i] !in ids[..i];
    assert ids[..i + 1][..i] == ids[..i];
  }

  /** The loop of `check_unlocks` over the skins `ids` (the dictionary order), on the set of
      unlocked ids. */
  method UnlockPass(ids: seq<string>, unlocked: set<string>, playerLevel: int, prestigeLevel: int)
    returns (newly: seq<string>, after: set<string>)
    requires Distinct(ids) && forall x :: x in ids ==> x in Skins
    ensures newly == Newly(ids, unlocked, playerLevel, prestigeLevel)
    ensures after == unlocked + Elems(newly)
  {
    newly := [];
    after := unlocked;
    for i := 0 to |ids|
      invariant newly == Newly(ids[..i], unlocked, playerLevel, prestigeLevel)
      invariant after == unlocked + Elems(newly)
    {
      PassStep(ids, i, unlocked, playerLevel, prestigeLevel);
      var gained;
      gained, after := VisitSkin(ids[i], after, playerLevel, prestigeLevel);
      assert Elems(newly + gained) == Elems(newly) + Elems(gained);
      newly := newly + gained;
    }
    assert ids[..|ids|] == ids;
  }

  /** The write of the unlocked list: the settings hold no `unlocked_skins` key, so
      `update_setting` leaves the save data as it was. */
  method StoreUnlocked(save: SaveSystem.SaveSystem, value: SaveSystem.Value)
    requires save.Valid()
    modifies save
    ensures save.Valid() && unchanged(save)
  {
    save.UpdateSetting("unlocked_skins", value);
  }

  class SkinSystem {
    const save: SaveSystem.SaveSystem
    var selected: string
    var unlocked: set<string>
    var rainbowHue: int
    var dragonTrail: seq<Particle>

    /** Only known skins are unlocked, the classic skin always is, the selection is an
        unlocked skin, the hue is an angle and the trail is bounded and aged. */
    ghost predicate Valid()
      reads this, save
    {
      save.Valid()
      && unlocked <= Skins.Keys && "classic" in unlocked && selected in unlocked
      && 0 <= rainbowHue < 360
      && |dragonTrail| <= TrailLimit && Aged(dragonTrail)
    }

    /** Reads the selection and the unlocked list from the settings; both keys are absent,
        so the defaults apply. */
    constructor (save: SaveSystem.SaveSystem)
      requires save.Valid()
      ensures this.save == save && Valid()
      ensures selected == "classic" && unlocked == {"classic"}
      ensures rainbowHue == 0 && dragonTrail == []
    {
      this.save := save;
      var stored := save.GetSetting("selected_skin", SaveSystem.Text("classic"));
      selected := stored.s;
      var list := save.GetSetting("unlocked_skins", SaveSystem.List([SaveSystem.Text("classic")]));
      var flags: set<string> := {"classic"};
      for k := 0 to |list.items|
        invariant flags == {"classic"}
      {
        var item := list.items[k];
        if item.Text? && item.s in Skins {
          flags := flags + {item.s};
        }
      }
      unlocked := flags;
      rainbowHue := 0;
      dragonTrail := [];
    }

    /** `check_unlocks`: unlocks, in dictionary order, each locked skin whose level or
        prestige condition holds, and returns the ids it unlocked. The write of the unlocked
        list goes to a key the settings do not hold. */
    method CheckUnlocks(playerLevel: int, prestigeLevel: int) returns (newly: seq<string>)
      requires Valid()
      modifies this`unlocked, save
      ensures Valid() && unchanged(save)
      ensures newly == Newly(Order, old(unlocked), playerLevel, prestigeLevel)
      ensures unlocked == old(unlocked) + Elems(newly)
      ensures selected == old(selected) && rainbowHue == old(rainbowHue) && dragonTrail == old(dragonTrail)
    {
      var after;
      OrderListsKeys();
      newly, after := UnlockPass(Order, unlocked, playerLevel, prestigeLevel);
      assert Elems(newly) <= Skins.Keys by {
        NewlyExact(Order, unlocked, playerLevel, prestigeLevel);
      }
      unlocked := after;
      if newly != [] {
        StoreUnlocked(save, AsTextList(UnlockedList(Order, unlocked)));
      }
    }

    /** `select_skin`: succeeds exactly for a known, unlocked skin; otherwise nothing
        changes. */
    method SelectSkin(id: string) returns (ok: bool)
      requires Valid()
      modifies this, save
      ensures Valid() && unchanged(save)
      ensures ok <==> id in Skins && id in old(unlocked)
      ensures selected == (if ok then id else old(selected))
      ensures unlocked == old(unlocked) && rainbowHue == old(rainbowHue) && dragonTrail == old(dragonTrail)
    {
      if id in Skins && id in unlocked {
        selected := id;
        save.UpdateSetting("selected_skin", SaveSystem.Text(id));
        return true;
      }
      return false;
    }

    /** `get_skin_color`: the rainbow skin advances its hue by 2 degrees and returns that
        hue at full saturation and value; any other skin returns its fixed colour. Every
        call yields a colour. */
    method GetSkinColor() returns (c: Option<Color>)
      requires Valid()
      modifies this`rainbowHue
      ensures Valid() && c.Some?
      ensures selected == "rainbow" ==>
        rainbowHue == NextHue(old(rainbowHue)) && c == Some(HsvToRgb(rainbowHue as real, 1.0, 1.0))
      ensures selected != "rainbow" ==> rainbowHue == old(rainbowHue) && c == Skins[selected].color
    {
      if selected == "rainbow" {
        rainbowHue := (rainbowHue + 2) % 360;
        return Some(HsvToRgb(rainbowHue as real, 1.0, 1.0));
      }
      return Skins[selected].color;
    }

    /** `update_trail`: only the dragon skin pushes a new entry (dropping the oldest beyond
        20) and fades all of them. */
    method UpdateTrail(position: Point)
      requires Valid()
      modifies this`dragonTrail
      ensures Valid()
      ensures selected == "dragon" ==> dragonTrail == Faded(old(dragonTrail), position)
      ensures selected != "dragon" ==> dragonTrail == old(dragonTrail)
    {
      if selected == "dragon" {
        ghost var before := dragonTrail;
        var pushed := dragonTrail + [Particle(position, 255, 20)];
        if |pushed| > TrailLimit {
          pushed := pushed[1..];
        }
        dragonTrail := FadeAll(pushed);
        FadedStaysAged(before, position);
      }
    }

    /** `get_unlocked_count`. */
    function UnlockedCount(): (n: nat)
      reads this
      ensures n <= |Order|
    {
      Count(Order, unlocked)
    }

    /** `get_total_count`. */
    function TotalCount(): (n: nat)
      ensures n == |Skins|
    {
      |Order|
    }

    /** At least the classic skin and at most all six are unlocked. */
    lemma CountsBounded()
      requires Valid()
      ensures 1 <= UnlockedCount() <= TotalCount()
    {
      CountFindsMember(Order, unlocked, "classic");
    }
  }
}
