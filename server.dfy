/**
 * Helpers of the game server, Go/src/Programmierwettbewerb-Server/server.go:
 * the id allocators of `Application` and the id seeding of `initialize`,
 * `rgbToGrayscale`, `limitPosition`, `isInViewWindow`,
 * `calcBlobbMassLoss`, `splitAllBlobsOfBot` and `IdsContainer.insert`.
 * `float32` quantities are reals; the `uint32` ids and colour channels
 * wrap explicitly.  The iteration order of a Go map is a parameter.
 */
module GameServer {
  import opened GoShared

  /** Go's `uint32`. */
  type Uint32 = n: nat | n < 0x1_0000_0000

  /** `uint32` increment, wrapping to 0 after the largest value. */
  function Succ(id: Uint32): (r: Uint32)
    ensures id < 0xFFFF_FFFF ==> r == id + 1
    ensures id == 0xFFFF_FFFF ==> r == 0
  {
    (id + 1) % 0x1_0000_0000
  }

  type GuiId = Uint32
  type BotId = Uint32
  type BlobId = Uint32
  type FoodId = Uint32
  type ToxinId = Uint32
  type CommandId = Uint32

  const BotMinMass: real := 10.0
  const BotMaxMass: real := 4000.0
  const BlobReunionTime: real := 10.0
  const BlobSplitMass: real := 100.0
  const BlobSplitVelocity: real := 1.5
  const MassLossFactor: real := 10.0

  /** The part of `ServerSettings` that `initialize` sets. */
  datatype ServerSettings = ServerSettings(
    minNumberOfBots: int, maxNumberOfBots: int, maxNumberOfFoods: int, maxNumberOfToxins: int)

  /**
   * `Application`: the settings, the field size, the id counters and the
   * ids of the food and toxin maps.  The food and toxin contents are drawn
   * at random and are not part of this model.
   */
  class Application {
    var settings: ServerSettings
    var fieldSize: Vec2
    var nextGuiId: GuiId
    var nextBotId: BotId
    var nextBlobId: BlobId
    var nextFoodId: FoodId
    var nextToxinId: ToxinId
    var nextServerCommandId: CommandId
    var foodIds: set<FoodId>
    var toxinIds: set<ToxinId>

    /** Every seeded food and toxin id lies below the counter that hands out the next one. */
    predicate IdsBelowCounters()
      reads this
    {
      && (forall id :: id in foodIds ==> id < nextFoodId)
      && (forall id :: id in toxinIds ==> id < nextToxinId)
    }

    /**
     * `initialize`: foods `0 .. MaxNumberOfFoods-1` and toxins
     * `0 .. MaxNumberOfToxins-1`, with the food and toxin counters one
     * past the maxima.
     */
    constructor Initialize()
      ensures settings == ServerSettings(10, 100, 400, 200)
      ensures fieldSize == Vec2(1000.0, 1000.0)
      ensures nextGuiId == 0 && nextBotId == 1 && nextBlobId == 1 && nextServerCommandId == 0
      ensures nextFoodId == 401 && nextToxinId == 201
      ensures forall id: Uint32 :: id in foodIds <==> id < 400
      ensures forall id: Uint32 :: id in toxinIds <==> id < 200
      ensures IdsBelowCounters()
    {
      settings := ServerSettings(10, 100, 400, 200);
      fieldSize := Vec2(1000.0, 1000.0);
      nextGuiId := 0;
      nextBotId := 1;
      nextBlobId := 1;
      nextServerCommandId := 0;
      nextFoodId := 400 + 1;
      nextToxinId := 200 + 1;
      var foods: set<FoodId> := {};
      for i := 0 to 400
        invariant forall id: Uint32 :: id in foods <==> id < i
      {
        foods := foods + {i};
      }
      var toxins: set<ToxinId> := {};
      for i := 0 to 200
        invariant forall id: Uint32 :: id in toxins <==> id < i
      {
        toxins := toxins + {i};
      }
      foodIds := foods;
      toxinIds := toxins;
    }

    /** `createGuiId`. */
    method CreateGuiId() returns (id: GuiId)
      modifies this
      ensures id == old(nextGuiId) && nextGuiId == Succ(id)
      ensures nextBotId == old(nextBotId) && nextBlobId == old(nextBlobId) && nextFoodId == old(nextFoodId)
        && nextToxinId == old(nextToxinId) && nextServerCommandId == old(nextServerCommandId)
      ensures settings == old(settings) && fieldSize == old(fieldSize) && foodIds == old(foodIds) && toxinIds == old(toxinIds)
    {
      id := nextGuiId;
      nextGuiId := Succ(id);
    }

    /** `createServerCommandId`. */
    method CreateServerCommandId() returns (id: CommandId)
      modifies this
      ensures id == old(nextServerCommandId) && nextServerCommandId == Succ(id)
      ensures nextGuiId == old(nextGuiId) && nextBotId == old(nextBotId) && nextBlobId == old(nextBlobId)
        && nextFoodId == old(nextFoodId) && nextToxinId == old(nextToxinId)
      ensures settings == old(settings) && fieldSize == old(fieldSize) && foodIds == old(foodIds) && toxinIds == old(toxinIds)
    {
      id := nextServerCommandId;
      nextServerCommandId := Succ(id);
    }

    /** `createBotId`. */
    method CreateBotId() returns (id: BotId)
      modifies this
      ensures id == old(nextBotId) && nextBotId == Succ(id)
      ensures nextGuiId == old(nextGuiId) && nextBlobId == old(nextBlobId) && nextFoodId == old(nextFoodId)
        && nextToxinId == old(nextToxinId) && nextServerCommandId == old(nextServerCommandId)
      ensures settings == old(settings) && fieldSize == old(fieldSize) && foodIds == old(foodIds) && toxinIds == old(toxinIds)
    {
      id := nextBotId;
      nextBotId := Succ(id);
    }

    /** `createBlobId`. */
    method CreateBlobId() returns (id: BlobId)
      modifies this
      ensures id == old(nextBlobId) && nextBlobId == Succ(id)
      ensures nextGuiId == old(nextGuiId) && nextBotId == old(nextBotId) && nextFoodId == old(nextFoodId)
        && nextToxinId == old(nextToxinId) && nextServerCommandId == old(nextServerCommandId)
      ensures settings == old(settings) && fieldSize == old(fieldSize) && foodIds == old(foodIds) && toxinIds == old(toxinIds)
    {
      id := nextBlobId;
      nextBlobId := Succ(id);
    }

    /** `createFoodId`. */
    method CreateFoodId() returns (id: FoodId)
      modifies this
      ensures id == old(nextFoodId) && nextFoodId == Succ(id)
      ensures nextGuiId == old(nextGuiId) && nextBotId == old(nextBotId) && nextBlobId == old(nextBlobId)
        && nextToxinId == old(nextToxinId) && nextServerCommandId == old(nextServerCommandId)
      ensures settings == old(settings) && fieldSize == old(fieldSize) && foodIds == old(foodIds) && toxinIds == old(toxinIds)
    {
      id := nextFoodId;
      nextFoodId := Succ(id);
    }

    /** `createToxinId`. */
    method CreateToxinId() returns (id: ToxinId)
      modifies this
      ensures id == old(nextToxinId) && nextToxinId == Succ(id)
      ensures nextGuiId == old(nextGuiId) && nextBotId == old(nextBotId) && nextBlobId == old(nextBlobId)
        && nextFoodId == old(nextFoodId) && nextServerCommandId == old(nextServerCommandId)
      ensures settings == old(settings) && fieldSize == old(fieldSize) && foodIds == old(foodIds) && toxinIds == old(toxinIds)
    {
      id := nextToxinId;
      nextToxinId := Succ(id);
    }
  }

  /** The ids `count` successive calls of an allocator hand out, starting at `next`. */
  function Allocated(next: Uint32, count: nat): (r: seq<Uint32>)
    decreases count
  {
    if count == 0 then [] else [next] + Allocated(Succ(next), count - 1)
  }

  /** Until the counter wraps, successive ids are consecutive, hence strictly increasing and distinct. */
  lemma {:induction false} AllocatedIncreasing(next: Uint32, count: nat)
    requires next + count <= 0x1_0000_0000
    ensures |Allocated(next, count)| == count
    ensures forall i :: 0 <= i < count ==> Allocated(next, count)[i] == next + i
    decreases count
  {
    if count > 0 {
      if count > 1 {
        AllocatedIncreasing(Succ(next), count - 1);
      } else {
        assert Allocated(next, count) == [next];
      }
    }
  }

  /** Allocation wraps: the id after the largest one is 0 again, so ids repeat after 2^32 calls. */
  lemma AllocatedWraps()
    ensures Allocated(0xFFFF_FFFF, 2) == [0xFFFF_FFFF, 0]
  {
  }

  /*
   * Pure helpers
   */

  /**
   * `rgbToGrayscale`: the weighted sum in `uint32` arithmetic, divided by
   * 1000, shifted right by 8 and truncated to `uint8`.
   */
  function RgbToGrayscale(r: Uint32, g: Uint32, b: Uint32): (y: nat)
    ensures y < 256
  {
    var sum := (299 * r + 587 * g + 114 * b + 500) % 0x1_0000_0000;
    (sum / 1000 / 256) % 256
  }

  /**
   * With 16-bit channels, as `color.RGBA` delivers them, the weights summing
   * to 1000 keep the sum below 2^32, the `uint8` conversion drops nothing,
   * and equal channels `c` give `c >> 8`.
   */
  lemma GrayscaleRange(r: Uint32, g: Uint32, b: Uint32)
    requires r <= 0xFFFF && g <= 0xFFFF && b <= 0xFFFF
    ensures 299 * r + 587 * g + 114 * b + 500 < 0x1_0000_0000
    ensures RgbToGrayscale(r, g, b) == (299 * r + 587 * g + 114 * b + 500) / 1000 / 256
    ensures r == g == b ==> RgbToGrayscale(r, g, b) == r / 256
  {
    var sum := 299 * r + 587 * g + 114 * b + 500;
    assert sum < 1000 * (0xFFFF + 1);
    var q := sum / 1000;
    assert q <= 0xFFFF;
    assert sum % 0x1_0000_0000 == sum;
    assert (q / 256) % 256 == q / 256;
    if r == g == b {
      assert sum == 1000 * r + 500;
      DivRounding(r);
    }
  }

  /** Adding half the divisor before dividing does not round a multiple of 1000 up. */
  lemma DivRounding(c: nat)
    ensures (1000 * c + 500) / 1000 == c
  {
  }

  /** `x` clamped into `[0, max]` as the two `if`s of `limitPosition` do it, lower bound first. */
  function Clamp(x: real, max: real): real {
    var lowered := if x < 0.0 then 0.0 else x;
    if lowered > max then max else lowered
  }

  /** `limitPosition`: each coordinate clamped into the field. */
  method LimitPosition(fieldSize: Vec2, position: Vec2) returns (p: Vec2)
    ensures p == Vec2(Clamp(position.x, fieldSize.x), Clamp(position.y, fieldSize.y))
  {
    p := position;
    if p.x < 0.0 { p := p.(x := 0.0); }
    if p.y < 0.0 { p := p.(y := 0.0); }
    if p.x > fieldSize.x { p := p.(x := fieldSize.x); }
    if p.y > fieldSize.y { p := p.(y := fieldSize.y); }
  }

  /**
   * In a field of non-negative size the clamped coordinate lies in
   * `[0, max]`, a coordinate already there is kept, and clamping twice is
   * clamping once.
   */
  lemma ClampRange(x: real, max: real)
    requires max >= 0.0
    ensures 0.0 <= Clamp(x, max) <= max
    ensures 0.0 <= x <= max ==> Clamp(x, max) == x
    ensures x < 0.0 ==> Clamp(x, max) == 0.0
    ensures x > max ==> Clamp(x, max) == max
    ensures Clamp(Clamp(x, max), max) == Clamp(x, max)
  {
  }

  /** `ViewWindow`: lower-left corner and size. */
  datatype ViewWindow = ViewWindow(position: Vec2, size: Vec2)

  /** `isInViewWindow`: the open rectangle of the window contains the position; `radius` is not read. */
  predicate IsInViewWindow(w: ViewWindow, position: Vec2, radius: real) {
    && position.x > w.position.x && position.y > w.position.y
    && position.x < w.position.x + w.size.x && position.y < w.position.y + w.size.y
  }

  /** The test ignores the radius and excludes the window's edges. */
  lemma ViewWindowOpen(w: ViewWindow, position: Vec2, r1: real, r2: real)
    ensures IsInViewWindow(w, position, r1) == IsInViewWindow(w, position, r2)
    ensures !IsInViewWindow(w, w.position, r1)
    ensures !IsInViewWindow(w, Vec2(w.position.x + w.size.x, position.y), r1)
    ensures IsInViewWindow(w, position, r1) ==> w.size.x > 0.0 && w.size.y > 0.0
  {
  }

  /**
   * `calcBlobbMassLoss`: a blob above the minimum mass loses a share
   * proportional to its mass; the clamp to the maximum mass comes after
   * that branch.
   */
  function CalcBlobbMassLoss(mass: real, dt: real): real {
    if mass > BotMinMass then mass - (mass / BotMaxMass) * dt * MassLossFactor
    else if mass > BotMaxMass then BotMaxMass
    else mass
  }

  /**
   * A mass at or below the minimum is returned unchanged; any heavier mass
   * takes the first branch, so the clamp to `botMaxMass` never applies: a
   * blob of 5000 stays above the maximum for a step of length 0.
   */
  lemma MassLossBranches(mass: real, dt: real)
    ensures mass <= BotMinMass ==> CalcBlobbMassLoss(mass, dt) == mass
    ensures mass > BotMinMass ==> CalcBlobbMassLoss(mass, dt) == mass - (mass / BotMaxMass) * dt * MassLossFactor
    ensures mass > BotMinMass && dt >= 0.0 ==> CalcBlobbMassLoss(mass, dt) <= mass
    ensures CalcBlobbMassLoss(5000.0, 0.0) == 5000.0 > BotMaxMass
  {
    if mass > BotMinMass && dt >= 0.0 {
      assert mass / BotMaxMass >= 0.0;
      assert (mass / BotMaxMass) * dt >= 0.0;
    }
  }

  /*
   * Splitting blobs
   */

  /** `Blob`. */
  datatype Blob = Blob(position: Vec2, mass: real, velocityFac: real, isSplit: bool, reunionTime: real,
    individualTargetVec: Vec2)

  /** `NullVec2`. */
  const NullVec2: Vec2 := Vec2(0.0, 0.0)

  /** A split blob keeps half its mass and waits one unit longer for reunion. */
  function Halved(b: Blob): Blob {
    b.(mass := b.mass / 2.0, reunionTime := b.reunionTime + 1.0)
  }

  /** The blob split off: same position, the other half of the mass, split speed and reunion time. */
  function SplitOff(b: Blob): Blob {
    Blob(b.position, b.mass / 2.0, BlobSplitVelocity, true, BlobReunionTime, NullVec2)
  }

  /** The bot's blob map after the first loop, the map of new blobs, and the blob counter. */
  datatype SplitState = SplitState(blobs: map<BlobId, Blob>, newBlobs: map<BlobId, Blob>, nextBlobId: BlobId)

  /** One pass of the first loop's body for the key `k`. */
  function SplitStep(s: SplitState, k: BlobId): SplitState {
    if k in s.blobs && s.blobs[k].mass >= BlobSplitMass then
      SplitState(s.blobs[k := Halved(s.blobs[k])], s.newBlobs[s.nextBlobId := SplitOff(s.blobs[k])], Succ(s.nextBlobId))
    else s
  }

  /** The first loop of `splitAllBlobsOfBot` over the keys `order`, in that order. */
  function SplitLoop(blobs: map<BlobId, Blob>, order: seq<BlobId>, next: BlobId): SplitState
    decreases |order|
  {
    if |order| == 0 then SplitState(blobs, map[], next)
    else SplitStep(SplitLoop(blobs, order[..|order| - 1], next), order[|order| - 1])
  }

  /** `splitAllBlobsOfBot`: the first loop, then the new blobs copied into the bot's map. */
  function SplitAll(blobs: map<BlobId, Blob>, order: seq<BlobId>, next: BlobId): (map<BlobId, Blob>, BlobId) {
    var s := SplitLoop(blobs, order, next);
    (s.blobs + s.newBlobs, s.nextBlobId)
  }

  /** `order` is an iteration order of the map: every key exactly once. */
  predicate Enumerates(order: seq<BlobId>, blobs: map<BlobId, Blob>) {
    && (forall i :: 0 <= i < |order| ==> order[i] in blobs)
    && (forall i, j :: 0 <= i < j < |order| ==> order[i] != order[j])
    && (forall k :: k in blobs ==> k in order)
  }

  /** The keys of `order` whose blob is heavy enough to split, in order. */
  function Splits(blobs: map<BlobId, Blob>, order: seq<BlobId>): (r: seq<BlobId>)
    ensures |r| <= |order|
    ensures forall j :: 0 <= j < |r| ==> r[j] in blobs && blobs[r[j]].mass >= BlobSplitMass
    decreases |order|
  {
    if |order| == 0 then []
    else
      var k := order[|order| - 1];
      Splits(blobs, order[..|order| - 1]) + (if k in blobs && blobs[k].mass >= BlobSplitMass then [k] else [])
  }

  /** The state of the first loop, blob by blob, while the counter does not wrap. */
  ghost predicate LoopState(blobs: map<BlobId, Blob>, order: seq<BlobId>, next: BlobId, s: SplitState) {
    var splits := Splits(blobs, order);
    && s.blobs.Keys == blobs.Keys
    && (forall k :: k in blobs ==>
          s.blobs[k] == if k in order && blobs[k].mass >= BlobSplitMass then Halved(blobs[k]) else blobs[k])
    && s.nextBlobId == next + |splits|
    && (forall id :: id in s.newBlobs <==> next <= id < s.nextBlobId)
    && (forall j :: 0 <= j < |splits| ==> next + j in s.newBlobs && s.newBlobs[next + j] == SplitOff(blobs[splits[j]]))
  }

  /** `LoopState` holds after every prefix of an iteration order. */
  lemma {:induction false} SplitLoopState(blobs: map<BlobId, Blob>, order: seq<BlobId>, next: BlobId)
    requires (forall i :: 0 <= i < |order| ==> order[i] in blobs)
    requires forall i, j :: 0 <= i < j < |order| ==> order[i] != order[j]
    requires next + |order| < 0x1_0000_0000
    ensures LoopState(blobs, order, next, SplitLoop(blobs, order, next))
    decreases |order|
  {
    if |order| > 0 {
      var init := order[..|order| - 1];
      var k := order[|order| - 1];
      assert order == init + [k];
      SplitLoopState(blobs, init, next);
      assert k !in init;
      if blobs[k].mass >= BlobSplitMass {
        StepSplits(blobs, init, k, next, SplitLoop(blobs, init, next));
      } else {
        StepKeeps(blobs, init, k, next, SplitLoop(blobs, init, next));
      }
    }
  }

  /** A heavy blob met for the first time is halved and gets one new blob under the next id. */
  lemma StepSplits(blobs: map<BlobId, Blob>, init: seq<BlobId>, k: BlobId, next: BlobId, s: SplitState)
    requires LoopState(blobs, init, next, s)
    requires k in blobs && k !in init && blobs[k].mass >= BlobSplitMass
    requires next + |init| + 1 < 0x1_0000_0000
    ensures LoopState(blobs, init + [k], next, SplitStep(s, k))
  {
    var order := init + [k];
    assert order[..|order| - 1] == init;
    var splits := Splits(blobs, init);
    assert Splits(blobs, order) == splits + [k];
    var t := SplitStep(s, k);
    assert t.nextBlobId == next + |splits| + 1;
    forall j | 0 <= j < |splits| + 1
      ensures next + j in t.newBlobs && t.newBlobs[next + j] == SplitOff(blobs[(splits + [k])[j]])
    {
      if j < |splits| {
        assert (splits + [k])[j] == splits[j];
      }
    }
    forall k' | k' in blobs
      ensures t.blobs[k'] == if k' in order && blobs[k'].mass >= BlobSplitMass then Halved(blobs[k']) else blobs[k']
    {
    }
  }

  /** A light blob leaves the state as it is. */
  lemma StepKeeps(blobs: map<BlobId, Blob>, init: seq<BlobId>, k: BlobId, next: BlobId, s: SplitState)
    requires LoopState(blobs, init, next, s)
    requires k in blobs && k !in init && blobs[k].mass < BlobSplitMass
    ensures LoopState(blobs, init + [k], next, SplitStep(s, k))
  {
    var order := init + [k];
    assert order[..|order| - 1] == init;
    assert Splits(blobs, order) == Splits(blobs, init);
  }

  /**
   * What `splitAllBlobsOfBot` does, when no id it hands out is in use yet
   * and the counter does not wrap: every blob of at least `blobSplitMass`
   * is halved and waits one unit longer; lighter blobs are untouched; each
   * split adds one blob under the next fresh id, with the same position
   * and the other half of the mass, so the mass of the pair is the mass of
   * the old blob; nothing else is added.
   */
  lemma SplitAllEffect(blobs: map<BlobId, Blob>, order: seq<BlobId>, next: BlobId)
    requires Enumerates(order, blobs)
    requires forall k :: k in blobs ==> k < next
    requires next + |order| < 0x1_0000_0000
    ensures var (after, n) := SplitAll(blobs, order, next);
      var splits := Splits(blobs, order);
      && n == next + |splits|
      && (forall k :: k in after <==> k in blobs || next <= k < n)
      && (forall k :: k in blobs ==> after[k] == if blobs[k].mass >= BlobSplitMass then Halved(blobs[k]) else blobs[k])
      && (forall j :: 0 <= j < |splits| ==>
            && after[next + j] == SplitOff(blobs[splits[j]])
            && after[splits[j]].mass + after[next + j].mass == blobs[splits[j]].mass)
  {
    SplitLoopState(blobs, order, next);
    var s := SplitLoop(blobs, order, next);
    var splits := Splits(blobs, order);
    SplitsInBlobs(blobs, order);
    forall j | 0 <= j < |splits|
      ensures (s.blobs + s.newBlobs)[splits[j]].mass + (s.blobs + s.newBlobs)[next + j].mass == blobs[splits[j]].mass
    {
      var k := splits[j];
      assert k in blobs && blobs[k].mass >= BlobSplitMass && k in order;
      assert k < next;
    }
  }

  /** Every split key comes from the order. */
  lemma {:induction false} SplitsInBlobs(blobs: map<BlobId, Blob>, order: seq<BlobId>)
    ensures forall j :: 0 <= j < |Splits(blobs, order)| ==> Splits(blobs, order)[j] in order
    decreases |order|
  {
    if |order| > 0 {
      SplitsInBlobs(blobs, order[..|order| - 1]);
    }
  }

  /** `Bot`: the blobs it controls, updated in place. */
  class Bot {
    var blobs: map<BlobId, Blob>

    constructor(blobs: map<BlobId, Blob>)
      ensures this.blobs == blobs
    {
      this.blobs := blobs;
    }
  }

  /**
   * `splitAllBlobsOfBot`, visiting the bot's blobs in the map iteration
   * order `order` and drawing the new ids from `app`.
   */
  method SplitAllBlobsOfBot(app: Application, bot: Bot, order: seq<BlobId>)
    requires Enumerates(order, bot.blobs)
    modifies app, bot
    ensures (bot.blobs, app.nextBlobId) == SplitAll(old(bot.blobs), order, old(app.nextBlobId))
    ensures app.nextGuiId == old(app.nextGuiId) && app.nextBotId == old(app.nextBotId)
      && app.nextFoodId == old(app.nextFoodId) && app.nextToxinId == old(app.nextToxinId)
      && app.nextServerCommandId == old(app.nextServerCommandId)
    ensures app.settings == old(app.settings) && app.fieldSize == old(app.fieldSize)
      && app.foodIds == old(app.foodIds) && app.toxinIds == old(app.toxinIds)
  {
    var newBlobMap: map<BlobId, Blob> := map[];
    for i := 0 to |order|
      invariant SplitLoop(old(bot.blobs), order[..i], old(app.nextBlobId)) == SplitState(bot.blobs, newBlobMap, app.nextBlobId)
      invariant app.nextGuiId == old(app.nextGuiId) && app.nextBotId == old(app.nextBotId)
        && app.nextFoodId == old(app.nextFoodId) && app.nextToxinId == old(app.nextToxinId)
        && app.nextServerCommandId == old(app.nextServerCommandId)
      invariant app.settings == old(app.settings) && app.fieldSize == old(app.fieldSize)
        && app.foodIds == old(app.foodIds) && app.toxinIds == old(app.toxinIds)
    {
      var subBlobToSplit := order[i];
      assert order[..i + 1][..i] == order[..i];
      if subBlobToSplit in bot.blobs && bot.blobs[subBlobToSplit].mass >= BlobSplitMass {
        var subBlob := bot.blobs[subBlobToSplit];
        var newMass := subBlob.mass / 2.0;
        bot.blobs := bot.blobs[subBlobToSplit := subBlob.(mass := newMass, reunionTime := subBlob.reunionTime + 1.0)];
        var newIndex := app.CreateBlobId();
        newBlobMap := newBlobMap[newIndex := Blob(subBlob.position, newMass, BlobSplitVelocity, true, BlobReunionTime, NullVec2)];
      }
    }
    assert order[..|order|] == order;
    bot.blobs := bot.blobs + newBlobMap;
  }

  /** `IdPair`. */
  datatype IdPair = IdPair(botId: BotId, blobId: BlobId)

  /** `IdsContainer`: a slice of id pairs that grows by `append`. */
  class IdsContainer {
    var pairs: seq<IdPair>

    /** `NewIdsContainer`. */
    constructor()
      ensures pairs == []
    {
      pairs := [];
    }

    /** `insert`: one pair appended at the end, the earlier ones kept. */
    method Insert(botId: BotId, blobId: BlobId)
      modifies this
      ensures pairs == old(pairs) + [IdPair(botId, blobId)]
      ensures |pairs| == |old(pairs)| + 1 && pairs[..|old(pairs)|] == old(pairs)
    {
      pairs := pairs + [IdPair(botId, blobId)];
    }
  }
}
