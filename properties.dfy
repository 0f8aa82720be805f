/** Properties of whole runs of one guild: commands and playback events applied in
    sequence to the value model of `Session`. */
module Properties {
  import opened Model
  import opened Voice
  import Session

  type Guild = Session.Guild

  /** Everything that can happen to one guild: a user command, a source running out
      on the device, or the event loop running a scheduled `play_next`. */
  datatype Command =
    | Play(track: Track)
    | Pause
    | Resume
    | Skip
    | Stop
    | Remove(index: int)
    | Clear
    | Volume(percent: int)
    | Loop
    | LoopQueue
    | TrackEnds
    | Deliver

  function Apply(g: Guild, c: Command): Guild {
    match c
    case Play(t) => Session.Play(g, t)
    case Pause => Session.Pause(g)
    case Resume => Session.Resume(g)
    case Skip => Session.Skip(g)
    case Stop => Session.Stop(g)
    case Remove(i) => Session.Remove(g, i)
    case Clear => Session.Clear(g)
    case Volume(v) => Session.Volume(g, v)
    case Loop => Session.Loop(g)
    case LoopQueue => Session.LoopQueue(g)
    case TrackEnds => Session.TrackEnds(g)
    case Deliver => Session.Deliver(g)
  }

  function Run(g: Guild, cs: seq<Command>): Guild
    decreases |cs|
  {
    if cs == [] then g else Run(Apply(g, cs[0]), cs[1..])
  }

  // ---------------------------------------------------------------------------
  // Loop flags and volume

  /** Every command and event keeps the player coherent. */
  lemma ApplyKeepsCoherent(g: Guild, c: Command)
    requires Coherent(g.player)
    ensures Coherent(Apply(g, c).player)
  {
    match c
    case Deliver =>
      if g.device.pending > 0 {
        var h := g.(device := g.device.(pending := g.device.pending - 1));
        assert Session.PlayNext(h).player.(current := h.player.current) == Next(h.player).player;
      }
    case _ =>
  }

  lemma {:induction false} RunKeepsCoherent(g: Guild, cs: seq<Command>)
    requires Coherent(g.player)
    ensures Coherent(Run(g, cs).player)
    decreases |cs|
  {
    if cs != [] {
      ApplyKeepsCoherent(g, cs[0]);
      RunKeepsCoherent(Apply(g, cs[0]), cs[1..]);
    }
  }

  /** No sequence of commands, starting from a guild whose player is created on
      demand, ever has both loop flags on, or a volume above 100. */
  lemma {:induction false} LoopFlagsExclusive(cs: seq<Command>)
    ensures var p := Run(Session.FreshGuild, cs).player;
      !(p.loopSong && p.loopQueue) && p.volume <= MaxVolume
  {
    RunKeepsCoherent(Session.FreshGuild, cs);
  }

  /** `loop` twice restores loop-song when loop-queue was off. */
  lemma LoopTwiceRestores(p: PlayerState)
    requires !p.loopQueue
    ensures ToggleLoop(ToggleLoop(p)) == p
  {
  }

  /** Setting the same volume twice is the same as setting it once. */
  lemma VolumeIdempotent(p: PlayerState, percent: int)
    ensures SetVolume(SetVolume(p, percent), percent) == SetVolume(p, percent)
  {
  }

  // ---------------------------------------------------------------------------
  // Queue operations

  /** `remove` undoes `add`: removing the last position takes back what was added. */
  lemma RemoveUndoesAdd(p: PlayerState, t: Track)
    ensures Model.Remove(Add(p, t), |p.queue| + 1) == Taken(Some(t), p)
  {
    var q := p.queue + [t];
    assert q[..|p.queue|] + q[|p.queue| + 1..] == p.queue;
  }

  /** `remove` takes exactly the one source out: the queue loses that source and
      keeps every other one. */
  lemma RemoveTakesOne(p: PlayerState, index: int)
    requires 1 <= index <= |p.queue|
    ensures multiset(Model.Remove(p, index).player.queue) + multiset{p.queue[index - 1]}
              == multiset(p.queue)
  {
    var k := index - 1;
    assert p.queue == p.queue[..k] + [p.queue[k]] + p.queue[k + 1..];
  }

  // ---------------------------------------------------------------------------
  // Play requests

  /** The request as it is queued or started: carrying the player's volume. */
  function AtVolume(ts: seq<Track>, v: nat): (r: seq<Track>)
    ensures |r| == |ts|
    ensures forall i | 0 <= i < |ts| :: r[i] == ts[i].(volume := v)
    decreases |ts|
  {
    if ts == [] then [] else [ts[0].(volume := v)] + AtVolume(ts[1..], v)
  }

  function Plays(g: Guild, ts: seq<Track>): Guild
    decreases |ts|
  {
    if ts == [] then g else Plays(Session.Play(g, ts[0]), ts[1..])
  }

  /** Regrouping a concatenation, stated generically so that the solver does not
      have to regroup sequences of `Track` records. */
  lemma AppendAssoc<T>(a: seq<T>, b: seq<T>, c: seq<T>)
    ensures (a + b) + c == a + (b + c)
  {
  }

  lemma BusyPlay(g: Guild, t: Track)
    requires !Session.Activates(g)
    ensures Session.Play(g, t) == g.(player := g.player.(queue := g.player.queue + [t.(volume := g.player.volume)]))
  {
  }

  /** While the guild is busy, every request joins the queue in request order. */
  lemma {:induction false} BusyPlaysQueue(g: Guild, ts: seq<Track>)
    requires !Session.Activates(g)
    ensures Plays(g, ts) ==
              g.(player := g.player.(queue := g.player.queue + AtVolume(ts, g.player.volume)))
    decreases |ts|
  {
    if ts != [] {
      var v := g.player.volume;
      var src := ts[0].(volume := v);
      var h := Session.Play(g, ts[0]);
      BusyPlay(g, ts[0]);
      BusyPlaysQueue(h, ts[1..]);
      assert AtVolume(ts, v) == [src] + AtVolume(ts[1..], v);
      AppendAssoc(g.player.queue, [src], AtVolume(ts[1..], v));
    }
  }

  /** On an idle guild, the first of several requests starts at once and every later
      one is queued behind it, in request order. */
  lemma {:induction false} FirstPlayActivates(g: Guild, ts: seq<Track>)
    requires Session.Activates(g) && ts != []
    ensures var v := g.player.volume;
      var r := Plays(g, ts);
      && r.player.current == Some(ts[0].(volume := v))
      && r.player.queue == g.player.queue + AtVolume(ts[1..], v)
      && r.device == DeviceState(Playing, g.device.pending, g.device.started + [ts[0].(volume := v)])
  {
    var h := Session.Play(g, ts[0]);
    assert !Session.Activates(h);
    BusyPlaysQueue(h, ts[1..]);
  }

  // ---------------------------------------------------------------------------
  // Completions

  /** A source runs out (or is skipped) and the callback it fired is run. */
  function Cycle(g: Guild): Guild {
    Session.Deliver(Session.TrackEnds(g))
  }

  function Cycles(g: Guild, n: nat): Guild
    decreases n
  {
    if n == 0 then g else Cycles(Cycle(g), n - 1)
  }

  lemma {:induction false} CyclesLast(g: Guild, n: nat)
    ensures Cycles(g, n + 1) == Cycle(Cycles(g, n))
    decreases n
  {
    if n > 0 {
      CyclesLast(Cycle(g), n - 1);
    }
  }

  /** With no loop on, the completions of a playing guild start the queued sources
      one by one in FIFO order; after one completion per queued source and one for
      the source playing now, the guild is idle with an empty queue and nothing
      current. */
  lemma {:induction false} CompletionsPlayQueueInOrder(g: Guild)
    requires !g.player.loopSong && !g.player.loopQueue
    requires g.device.status == Playing && g.device.pending == 0
    ensures var r := Cycles(g, |g.player.queue| + 1);
      && r.device == DeviceState(Idle, 0, g.device.started + g.player.queue)
      && r.player == g.player.(queue := [], current := None)
    decreases |g.player.queue|
  {
    var h := Cycle(g);
    var q := g.player.queue;
    if q == [] {
      assert h.player == g.player.(current := None);
    } else {
      assert h.player == g.player.(queue := q[1..], current := Some(q[0]));
      assert h.device == DeviceState(Playing, 0, g.device.started + [q[0]]);
      CompletionsPlayQueueInOrder(h);
      assert [q[0]] + q[1..] == q;
    }
  }

  /** With loop-song on, every completion starts the current source again and leaves
      the queue alone. */
  lemma LoopSongRepeats(g: Guild)
    requires g.player.loopSong && g.player.current.Some?
    requires g.device.status == Playing && g.device.pending == 0
    ensures Cycle(g) == g.(device := g.device.(started := g.device.started + [g.player.current.value]))
  {
  }

  /** With loop-queue on, the current source and the queue form a ring that every
      completion turns by one place; the device starts the sources in ring order. */
  lemma {:induction false} LoopQueueRotates(g: Guild, k: nat)
    requires !g.player.loopSong && g.player.loopQueue && g.player.current.Some?
    requires g.device.status == Playing && g.device.pending == 0
    requires k <= |g.player.queue| + 1
    ensures var ring := [g.player.current.value] + g.player.queue;
      var turned := ring[k..] + ring[..k];
      Cycles(g, k) == Session.Guild(
        g.player.(current := Some(turned[0]), queue := turned[1..]),
        g.device.(started := g.device.started + (ring[1..] + [ring[0]])[..k]))
    decreases k
  {
    var ring := [g.player.current.value] + g.player.queue;
    var order := ring[1..] + [ring[0]];
    if k == 0 {
      assert ring[0..] + ring[..0] == ring;
    } else {
      LoopQueueRotates(g, k - 1);
      CyclesLast(g, k - 1);
      var before := ring[k - 1..] + ring[..k - 1];
      var after := ring[k..] + ring[..k];
      assert before[0] == ring[k - 1];
      assert before[1..] + [before[0]] == after by {
        assert before[1..] == ring[k..] + ring[..k - 1];
        assert ring[..k - 1] + [ring[k - 1]] == ring[..k];
      }
      assert after[0] == order[k - 1];
      assert order[..k - 1] + [order[k - 1]] == order[..k];
    }
  }

  /** One full turn of the loop-queue ring returns the player to where it started,
      having started every source of the ring once: the queue first, then the
      source that was current. */
  lemma LoopQueueFullTurn(g: Guild)
    requires !g.player.loopSong && g.player.loopQueue && g.player.current.Some?
    requires g.device.status == Playing && g.device.pending == 0
    ensures Cycles(g, |g.player.queue| + 1) ==
              g.(device := g.device.(started := g.device.started + g.player.queue + [g.player.current.value]))
  {
    var n := |g.player.queue| + 1;
    LoopQueueRotates(g, n);
    var ring := [g.player.current.value] + g.player.queue;
    assert ring[n..] + ring[..n] == ring;
    assert (ring[1..] + [ring[0]])[..n] == g.player.queue + [g.player.current.value];
  }

  /** A skip followed by its callback advances exactly as a natural end does. */
  function SkipCycles(g: Guild, n: nat): Guild
    decreases n
  {
    if n == 0 then g else SkipCycles(Session.Deliver(Session.Skip(g)), n - 1)
  }

  lemma {:induction false} SkipsAdvanceLikeCompletions(g: Guild, n: nat)
    ensures SkipCycles(g, n) == Cycles(g, n)
    decreases n
  {
    if n > 0 {
      SkipsAdvanceLikeCompletions(Cycle(g), n - 1);
    }
  }

  /** `stop` does not halt the queue: the completion callback that the stop fires
      still runs `play_next`, which starts the head of the queue. With `current`
      emptied no loop applies, so even under loop-song the stopped source is not
      replayed. */
  lemma StopThenCallbackStartsHead(g: Guild)
    requires g.device.status == Playing && g.device.pending == 0
    requires g.player.queue != []
    ensures var r := Session.Deliver(Session.Stop(g));
      && r.player.current == Some(g.player.queue[0])
      && r.player.queue == g.player.queue[1..]
      && r.player.loopSong == g.player.loopSong && r.player.loopQueue == g.player.loopQueue
      && r.device == DeviceState(Playing, 0, g.device.started + [g.player.queue[0]])
  {
  }

  /** A completion callback that outlives a `stop` can clear the slot of a source
      started afterwards: stop, then a new request starts at once, then the stale
      callback runs `play_next` on the empty queue and sets `current` to None while
      the device goes on playing the new source. */
  lemma StaleCallbackClearsCurrent(g: Guild, t: Track)
    requires !g.player.loopSong && !g.player.loopQueue
    requires g.device.status == Playing && g.device.pending == 0
    requires g.player.queue == []
    ensures var r := Session.Deliver(Session.Play(Session.Stop(g), t));
      && r.player.current == None
      && r.device.status == Playing && r.device.pending == 0
      && r.device.started == g.device.started + [t.(volume := g.player.volume)]
  {
  }
}
