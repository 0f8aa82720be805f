/** One guild as a value: its player and its voice connection, and what each command
    handler and each playback event does to the pair. */
module Session {
  import opened Model
  import opened Voice

  datatype Guild = Guild(player: PlayerState, device: DeviceState)

  /** A guild whose player is created on demand next to a fresh connection. */
  const FreshGuild: Guild := Guild(FreshPlayer, Connected)

  /** Every source the player holds, queued or current. */
  function Held(p: PlayerState): multiset<Track> {
    multiset(p.queue) + if p.current.Some? then multiset{p.current.value} else multiset{}
  }

  /** The condition under which `play` starts a request at once instead of
      queueing it: the device neither plays nor is paused and nothing is current. */
  predicate Activates(g: Guild) {
    g.device.status == Idle && g.player.current == None
  }

  /** `play`: the resolved source is given the player's volume; it then either
      becomes current and is handed to the device, or joins the tail of the queue.
      Either way the player holds it exactly once more than before. */
  function Play(g: Guild, t: Track): (r: Guild)
    ensures var src := t.(volume := g.player.volume);
      && Held(r.player) == Held(g.player) + multiset{src}
      && r.player.(queue := g.player.queue, current := g.player.current) == g.player
      && (Activates(g) ==>
            && r.player.current == Some(src) && r.player.queue == g.player.queue
            && r.device == DeviceState(Playing, g.device.pending, g.device.started + [src]))
      && (!Activates(g) ==>
            && r.player.current == g.player.current && r.player.queue == g.player.queue + [src]
            && r.device == g.device)
  {
    var src := t.(volume := g.player.volume);
    if Activates(g) then
      Guild(g.player.(current := Some(src)), Start(g.device, src))
    else
      Guild(Add(g.player, src), g.device)
  }

  /** `play_next`: the player's `next` picks the source; it becomes current (or
      nothing does) and is handed to the device, which starts it when idle. */
  function PlayNext(g: Guild): (r: Guild)
    ensures r.player.current == Next(g.player).track
    ensures r.player.(current := g.player.current) == Next(g.player).player
    ensures r.player.current.Some? && g.device.status == Idle ==>
              r.device == DeviceState(Playing, g.device.pending, g.device.started + [r.player.current.value])
    ensures r.player.current == None || g.device.status != Idle ==> r.device == g.device
  {
    var next := Next(g.player);
    match next.track
    case None => Guild(next.player.(current := None), g.device)
    case Some(t) => Guild(next.player.(current := Some(t)), Start(g.device, t))
  }

  /** The event loop runs one scheduled `play_next`, if any is pending. */
  function Deliver(g: Guild): Guild {
    if g.device.pending == 0 then g
    else PlayNext(g.(device := g.device.(pending := g.device.pending - 1)))
  }

  /** The source being played runs out on its own. */
  function TrackEnds(g: Guild): Guild {
    g.(device := RunOut(g.device))
  }

  /** `skip`: stops a playing device, which fires the same completion callback as a
      source that runs out; so a skip is indistinguishable from a natural end. */
  function Skip(g: Guild): (r: Guild)
    ensures r == TrackEnds(g)
  {
    if g.device.status == Playing then g.(device := Halt(g.device)) else g
  }

  /** `stop`: stops a playing device (firing its completion callback) and empties
      the current slot. A paused device is not stopped, and the queue is kept. */
  function Stop(g: Guild): (r: Guild)
    ensures r.player == g.player.(current := None)
    ensures g.device.status == Playing ==>
              r.device == g.device.(status := Idle, pending := g.device.pending + 1)
    ensures g.device.status != Playing ==> r.device == g.device
  {
    var d := if g.device.status == Playing then Halt(g.device) else g.device;
    Guild(g.player.(current := None), d)
  }

  /** `pause`. */
  function Pause(g: Guild): Guild {
    g.(device := Suspend(g.device))
  }

  /** `resume`. */
  function Resume(g: Guild): Guild {
    g.(device := Continue(g.device))
  }

  /** `remove`. */
  function Remove(g: Guild, index: int): Guild {
    g.(player := Model.Remove(g.player, index).player)
  }

  /** `clear`. */
  function Clear(g: Guild): Guild {
    g.(player := Model.Clear(g.player))
  }

  /** `volume`. */
  function Volume(g: Guild, percent: int): Guild {
    g.(player := SetVolume(g.player, percent))
  }

  /** `loop`. */
  function Loop(g: Guild): Guild {
    g.(player := ToggleLoop(g.player))
  }

  /** `loopqueue`. */
  function LoopQueue(g: Guild): Guild {
    g.(player := ToggleLoopQueue(g.player))
  }
}
