/**
  The replay buffer of a player in a game (src/client/ClientPlayer.ts):
  input and state frames queue up in `frames` and are flushed, every 500 ms,
  as one `replay` message whose frames all carry the flush counter.

  The socket send is modelled as an append to the player's `outbox`; the
  clock is a parameter; the replay timer is the delay of the one pending
  timer, if any.
 */
module Replay {
  import opened Wrappers
  import opened Json

  /** Delay of the replay timer, in milliseconds. */
  const ReplayMs: nat := 500

  /** What the player object supplies to the initial state frame. */
  datatype Player = Player(
    id: Value,            // the game id sent with every replay
    seed: Value,          // options.seed
    boardHeight: nat,     // options.boardHeight
    boardWidth: nat,      // options.boardWidth
    g: Value,             // options.g (gravity)
    nextPieces: Value,    // the upcoming bag
    playerOptions: Value, // player_.options, as a whole
    boardbuffer: nat,     // player_.options.boardbuffer
    handling: Value)      // player_.options.handling

  /** A pending frame `{type, data}`; `kind` is the frame's type. */
  datatype Frame = Frame(kind: string, data: Value)

  /** A flushed frame, tagged with the counter of the flush that sent it. */
  datatype StampedFrame = StampedFrame(kind: string, data: Value, frame: nat)

  /** The data of one outbound `replay` command. */
  datatype ReplayMessage = ReplayMessage(frames: seq<StampedFrame>, gameid: Value, provisioned: nat)

  const Zero: Value := Num(0.0)

  /** The `stats` part of the initial state template. */
  const FullStats: map<string, Value> := map[
    "lines" := Zero, "level_lines" := Zero, "level_lines_needed" := Num(1.0),
    "inputs" := Zero, "holds" := Zero,
    "time" := Obj(map["start" := Zero, "zero" := Bool(true), "locked" := Bool(false),
                      "prev" := Zero, "frameoffset" := Zero]),
    "score" := Zero, "zenlevel" := Num(1.0), "zenprogress" := Zero, "level" := Num(1.0),
    "combo" := Zero, "currentcombopower" := Zero, "topcombo" := Zero, "btb" := Zero,
    "topbtb" := Zero, "currentbtbchainpower" := Zero, "tspins" := Zero, "piecesplaced" := Zero,
    "clears" := Obj(map[
      "singles" := Zero, "doubles" := Zero, "triples" := Zero, "quads" := Zero,
      "pentas" := Zero, "realtspins" := Zero, "minitspins" := Zero, "minitspinsingles" := Zero,
      "tspinsingles" := Zero, "minitspindoubles" := Zero, "tspindoubles" := Zero,
      "tspintriples" := Zero, "tspinquads" := Zero, "tspinpentas" := Zero, "allclear" := Zero]),
    "garbage" := Obj(map["sent" := Zero, "received" := Zero, "attack" := Zero, "cleared" := Zero]),
    "kills" := Zero,
    "finesse" := Obj(map["combo" := Zero, "faults" := Zero, "perfectpieces" := Zero])]

  /** The `game` part of the initial state template. */
  const FullGame: map<string, Value> := map[
    "controlling" := Obj(map[
      "lastshift" := Zero, "ldas" := Zero, "ldasiter" := Zero, "lshift" := Bool(false),
      "rdas" := Zero, "rdasiter" := Zero, "rshift" := Bool(false), "softdrop" := Bool(false)]),
    "hold" := Obj(map["piece" := Null, "locked" := Bool(false)]),
    "playing" := Bool(true)]

  /** The initial state template that the first frame spreads. */
  const Full: map<string, Value> := map[
    "aggregatestats" := Obj(map["apm" := Zero, "pps" := Zero, "vsscore" := Zero]),
    "diyusi" := Zero,
    "enemies" := Arr([]),
    "fire" := Zero,
    "game" := Obj(FullGame),
    "gameoverreason" := Null,
    "killer" := Obj(map["gameid" := Null, "name" := Null, "type" := Str("sizzle")]),
    "replay" := Empty,
    "source" := Empty,
    "stats" := Obj(FullStats),
    "successful" := Bool(false),
    "targets" := Arr([])]

  /** The value at a path of object keys, if every step is an object holding the key. */
  function Lookup(v: Value, path: seq<string>): Option<Value>
    decreases |path|
  {
    if path == [] then Some(v)
    else if v.Obj? && path[0] in v.fields then Lookup(v.fields[path[0]], path[1..])
    else None
  }

  /** `rows` rows, each an array of `width` nulls. */
  predicate IsEmptyBoard(v: Value, rows: nat, width: nat)
  {
    v.Arr? && |v.items| == rows &&
    forall i :: 0 <= i < rows ==>
      v.items[i].Arr? && |v.items[i].items| == width &&
      forall j :: 0 <= j < width ==> v.items[i].items[j] == Null
  }

  /** The state carried by the initial `full` frame. */
  function FullState(me: Player): Value
  {
    var row := Arr(seq(me.boardWidth, _ => Null));
    var board := Arr(seq(me.boardHeight + me.boardbuffer, _ => row));
    Obj(Full["options" := me.playerOptions]
            ["stats" := Obj(FullStats["seed" := me.seed])]
            ["game" := Obj(FullGame["bag" := me.nextPieces]
                                   ["board" := board]
                                   ["g" := me.g]
                                   ["handling" := me.handling])])
  }

  /** The frames a new player starts with: the full state, then `start`. */
  function InitialFrames(me: Player): seq<Frame>
  {
    [Frame("full", FullState(me)), Frame("start", Empty)]
  }

  /** The seed, gravity, handling, bag and options are copied from the player. */
  lemma FullStateCopies(me: Player)
    ensures Lookup(FullState(me), ["stats", "seed"]) == Some(me.seed)
    ensures Lookup(FullState(me), ["game", "g"]) == Some(me.g)
    ensures Lookup(FullState(me), ["game", "handling"]) == Some(me.handling)
    ensures Lookup(FullState(me), ["game", "bag"]) == Some(me.nextPieces)
    ensures Lookup(FullState(me), ["options"]) == Some(me.playerOptions)
  {
  }

  /** The board has boardHeight + boardbuffer rows of boardWidth nulls each. */
  lemma FullStateBoard(me: Player)
    ensures Lookup(FullState(me), ["game", "board"]).Some?
    ensures IsEmptyBoard(Lookup(FullState(me), ["game", "board"]).value,
                         me.boardHeight + me.boardbuffer, me.boardWidth)
  {
  }

  /**
    Every other top-level entry of the template is kept, and the spread
    `game` and `stats` parts keep every template entry that the frame does
    not set itself.
   */
  lemma FullStateKeepsTemplate(me: Player)
    ensures forall k :: k in Full && k != "options" && k != "stats" && k != "game" ==>
              Lookup(FullState(me), [k]) == Some(Full[k])
    ensures forall k :: k in FullStats && k != "seed" ==>
              Lookup(FullState(me), ["stats", k]) == Some(FullStats[k])
    ensures forall k :: k in FullGame && k != "bag" && k != "board" && k != "g" && k != "handling" ==>
              Lookup(FullState(me), ["game", k]) == Some(FullGame[k])
  {
    var d := FullState(me);
    assert d.fields["stats"] == Obj(FullStats["seed" := me.seed]);
    forall k | k in FullStats && k != "seed"
      ensures Lookup(d, ["stats", k]) == Some(FullStats[k])
    {
      assert ["stats", k][1..] == [k];
      assert [k][1..] == [];
      assert Lookup(d, ["stats", k]) == Lookup(d.fields["stats"], [k]);
      assert FullStats["seed" := me.seed][k] == FullStats[k];
      assert Lookup(d.fields["stats"], [k]) == Lookup(FullStats[k], []);
    }
    var row := Arr(seq(me.boardWidth, _ => Null));
    var board := Arr(seq(me.boardHeight + me.boardbuffer, _ => row));
    assert d.fields["game"] == Obj(FullGame["bag" := me.nextPieces]["board" := board]
                                           ["g" := me.g]["handling" := me.handling]);
    forall k | k in FullGame && k != "bag" && k != "board" && k != "g" && k != "handling"
      ensures Lookup(d, ["game", k]) == Some(FullGame[k])
    {
      assert ["game", k][1..] == [k];
      assert [k][1..] == [];
      assert Lookup(d, ["game", k]) == Lookup(d.fields["game"], [k]);
      assert d.fields["game"].fields[k] == FullGame[k];
      assert Lookup(d.fields["game"], [k]) == Lookup(FullGame[k], []);
    }
  }

  /** Tags every frame with the flush counter `n`, keeping order and content. */
  function Stamp(fs: seq<Frame>, n: nat): (r: seq<StampedFrame>)
    ensures |r| == |fs|
    ensures forall i :: 0 <= i < |fs| ==> r[i] == StampedFrame(fs[i].kind, fs[i].data, n)
  {
    if fs == [] then [] else [StampedFrame(fs[0].kind, fs[0].data, n)] + Stamp(fs[1..], n)
  }

  /** Drops the flush counter again. */
  function Unstamp(r: seq<StampedFrame>): seq<Frame>
  {
    if r == [] then [] else [Frame(r[0].kind, r[0].data)] + Unstamp(r[1..])
  }

  /** Stamping loses nothing: dropping the counters gives back the frames. */
  lemma {:induction false} UnstampStamp(fs: seq<Frame>, n: nat)
    ensures Unstamp(Stamp(fs, n)) == fs
    decreases |fs|
  {
    if fs != [] {
      var r := Stamp(fs, n);
      assert r[1..] == Stamp(fs[1..], n);
      UnstampStamp(fs[1..], n);
      assert fs == [fs[0]] + fs[1..];
    }
  }

  /** Every frame sent so far, in sending order, without counters. */
  function Flatten(ms: seq<ReplayMessage>): seq<Frame>
  {
    if ms == [] then [] else Unstamp(ms[0].frames) + Flatten(ms[1..])
  }

  lemma {:induction false} FlattenAppend(ms: seq<ReplayMessage>, m: ReplayMessage)
    ensures Flatten(ms + [m]) == Flatten(ms) + Unstamp(m.frames)
    decreases |ms|
  {
    if ms == [] {
      assert ms + [m] == [m];
      assert [m][1..] == [];
    } else {
      assert (ms + [m])[0] == ms[0];
      assert (ms + [m])[1..] == ms[1..] + [m];
      FlattenAppend(ms[1..], m);
    }
  }

  predicate AllStamped(fs: seq<StampedFrame>, n: nat)
  {
    forall j :: 0 <= j < |fs| ==> fs[j].frame == n
  }

  class ClientPlayer {
    /** Frames queued since the last flush. */
    var frames: seq<Frame>
    /** Counter of the next flush. */
    var frameCount: nat
    /** Delay of the pending replay timer; `None` when none is pending. */
    var replayTimeout: Option<nat>
    /** Clock reading at the last flush. */
    var lastFrame: int
    /** Every `replay` message sent, oldest first. */
    var outbox: seq<ReplayMessage>
    const player: Player
    /** Every frame ever queued, oldest first. */
    ghost var history: seq<Frame>

    /**
      Nothing queued is lost or reordered: the frames sent, in order, then
      the frames still pending are all frames ever queued. Flush `i` carries
      counter `i` on its message and on each of its frames.
     */
    ghost predicate Valid()
      reads this
    {
      frameCount == |outbox| &&
      Flatten(outbox) + frames == history &&
      forall i :: 0 <= i < |outbox| ==>
        outbox[i].provisioned == i && outbox[i].gameid == player.id &&
        AllStamped(outbox[i].frames, i)
    }

    constructor (me: Player)
      ensures Valid()
      ensures |frames| == 2 && frames[0] == Frame("full", FullState(me)) && frames[1] == Frame("start", Empty)
      ensures history == frames
      ensures frameCount == 0 && outbox == [] && replayTimeout == None && lastFrame == 0
      ensures player == me
    {
      frames := InitialFrames(me);
      history := InitialFrames(me);
      frameCount := 0;
      replayTimeout := None;
      lastFrame := 0;
      outbox := [];
      player := me;
    }

    /**
      Flushes: cancels the pending timer, drains every queued frame into one
      message tagged with the counter read before its increment, and starts
      a single new timer.
     */
    method Replay(now: int)
      requires Valid()
      modifies this
      ensures Valid()
      ensures frames == [] && history == old(history)
      ensures frameCount == old(frameCount) + 1
      ensures outbox == old(outbox) + [ReplayMessage(Stamp(old(frames), old(frameCount)), player.id, old(frameCount))]
      ensures replayTimeout == Some(ReplayMs) && lastFrame == now
    {
      replayTimeout := None;
      var currentFrame := frameCount;
      frameCount := frameCount + 1;
      var drained := frames;
      frames := [];
      var msg := ReplayMessage(Stamp(drained, currentFrame), player.id, currentFrame);
      FlattenAppend(outbox, msg);
      UnstampStamp(drained, currentFrame);
      outbox := outbox + [msg];
      lastFrame := now;
      replayTimeout := Some(ReplayMs);
    }

    /** The pending replay timer fires and flushes again. */
    method ReplayTimerFires(now: int)
      requires Valid() && replayTimeout.Some?
      modifies this
      ensures Valid()
      ensures frames == [] && history == old(history)
      ensures frameCount == old(frameCount) + 1
      ensures outbox == old(outbox) + [ReplayMessage(Stamp(old(frames), old(frameCount)), player.id, old(frameCount))]
      ensures replayTimeout == Some(ReplayMs) && lastFrame == now
    {
      replayTimeout := None;
      Replay(now);
    }

    /** Queues a hard-drop key press at the end, behind everything pending. */
    method HardDrop(subframe: Value)
      requires Valid()
      modifies this
      ensures Valid()
      ensures frames == old(frames) + [Frame("keydown", Obj(map["key" := Str("hardDrop"), "subframe" := subframe]))]
      ensures history == old(history) + [frames[|frames| - 1]]
      ensures frameCount == old(frameCount) && outbox == old(outbox)
      ensures replayTimeout == old(replayTimeout) && lastFrame == old(lastFrame)
    {
      var f := Frame("keydown", Obj(map["key" := Str("hardDrop"), "subframe" := subframe]));
      frames := frames + [f];
      history := history + [f];
    }
  }
}
