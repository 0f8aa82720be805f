/** The per-guild player state as a value, and the rules that the player and the
    command handlers apply to it. A source is opaque apart from its title and the
    volume (in percent) its volume transformer plays at. */
module Model {

  datatype Option<T> = None | Some(value: T)

  /** A resolved audio source: its title and its transformer's volume, in percent. */
  datatype Track = Track(title: string, volume: nat)

  /** The fields of one guild's player: the FIFO queue (head first), the source
      being played, the two loop flags and the volume in percent. */
  datatype PlayerState = PlayerState(
    queue: seq<Track>,
    current: Option<Track>,
    loopSong: bool,
    loopQueue: bool,
    volume: nat)

  /** 0.5 as a percentage. */
  const DefaultVolume: nat := 50
  const MaxVolume: nat := 100

  /** The state of a newly created player. */
  const FreshPlayer: PlayerState := PlayerState([], None, false, false, DefaultVolume)

  /** What every reachable player satisfies: the loop flags exclude each other and
      the volume lies in 0..100. */
  predicate Coherent(p: PlayerState) {
    !(p.loopSong && p.loopQueue) && p.volume <= MaxVolume
  }

  /** A source taken out of the queue, if any, with the player state afterwards. */
  datatype Taken = Taken(track: Option<Track>, player: PlayerState)

  /** `add`: the source goes to the tail of the queue; nothing else changes. */
  function Add(p: PlayerState, t: Track): (r: PlayerState)
    ensures |r.queue| == |p.queue| + 1 && r.queue[|p.queue|] == t
    ensures r.queue[..|p.queue|] == p.queue
    ensures r.(queue := p.queue) == p
    ensures Coherent(p) ==> Coherent(r)
  {
    p.(queue := p.queue + [t])
  }

  /** `next`: loop-song replays the current source; loop-queue first re-appends
      the current source to the tail; then the head of the queue is taken, if any.
      The current slot itself is left for the caller to set. */
  function Next(p: PlayerState): (r: Taken)
    ensures r.player.(queue := p.queue) == p
    ensures p.loopSong && p.current.Some? ==>
              r.track == p.current && r.player.queue == p.queue
    ensures !p.loopSong && p.loopQueue && p.current.Some? ==>
              && |r.player.queue| == |p.queue|
              && r.track == Some(if p.queue == [] then p.current.value else p.queue[0])
              && r.player.queue == (p.queue + [p.current.value])[1..]
    ensures (!p.loopSong && !p.loopQueue) || p.current == None ==>
              if p.queue == [] then r == Taken(None, p)
              else r.track == Some(p.queue[0]) && r.player.queue == p.queue[1..]
    ensures r.track == None <==>
              p.queue == [] && (p.current == None || (!p.loopSong && !p.loopQueue))
  {
    if p.loopSong && p.current.Some? then
      Taken(p.current, p)
    else
      var q := if p.loopQueue && p.current.Some? then p.queue + [p.current.value] else p.queue;
      if q == [] then Taken(None, p.(queue := q))
      else Taken(Some(q[0]), p.(queue := q[1..]))
  }

  /** `remove`: `index` counts from 1; an index outside 1..|queue| changes nothing.
      The removed source is returned so that its title can be reported. */
  function Remove(p: PlayerState, index: int): (r: Taken)
    ensures 1 <= index <= |p.queue| ==>
              && r.track == Some(p.queue[index - 1])
              && |r.player.queue| == |p.queue| - 1
              && (forall j | 0 <= j < index - 1 :: r.player.queue[j] == p.queue[j])
              && (forall j | index - 1 <= j < |r.player.queue| :: r.player.queue[j] == p.queue[j + 1])
    ensures !(1 <= index <= |p.queue|) ==> r == Taken(None, p)
    ensures r.player.(queue := p.queue) == p
  {
    var k := index - 1;
    if 0 <= k < |p.queue| then Taken(Some(p.queue[k]), p.(queue := p.queue[..k] + p.queue[k + 1..]))
    else Taken(None, p)
  }

  /** `clear`: the queue is emptied; the current source stays. */
  function Clear(p: PlayerState): (r: PlayerState)
    ensures r.queue == [] && r.current == p.current
    ensures r.(queue := p.queue) == p
  {
    p.(queue := [])
  }

  /** `volume`: a percentage outside 0..100 is rejected and changes nothing;
      otherwise it becomes the player's volume and the current source's volume.
      Sources already queued keep the volume they were given when requested. */
  function SetVolume(p: PlayerState, percent: int): (r: PlayerState)
    ensures !(0 <= percent <= MaxVolume) ==> r == p
    ensures 0 <= percent <= MaxVolume ==>
              && r.volume == percent
              && r.queue == p.queue
              && r.loopSong == p.loopSong && r.loopQueue == p.loopQueue
              && (r.current == None <==> p.current == None)
              && (p.current.Some? ==> r.current.value == p.current.value.(volume := percent))
    ensures Coherent(p) ==> Coherent(r)
  {
    if !(0 <= percent <= MaxVolume) then p
    else
      var cur := if p.current.Some? then Some(p.current.value.(volume := percent)) else None;
      p.(volume := percent, current := cur)
  }

  /** `loop`: flips loop-song and switches loop-queue off. */
  function ToggleLoop(p: PlayerState): (r: PlayerState)
    ensures r.loopSong != p.loopSong && !r.loopQueue
    ensures r.(loopSong := p.loopSong, loopQueue := p.loopQueue) == p
    ensures p.volume <= MaxVolume ==> Coherent(r)
  {
    p.(loopSong := !p.loopSong, loopQueue := false)
  }

  /** `loopqueue`: flips loop-queue and switches loop-song off. */
  function ToggleLoopQueue(p: PlayerState): (r: PlayerState)
    ensures r.loopQueue != p.loopQueue && !r.loopSong
    ensures r.(loopSong := p.loopSong, loopQueue := p.loopQueue) == p
    ensures p.volume <= MaxVolume ==> Coherent(r)
  {
    p.(loopQueue := !p.loopQueue, loopSong := false)
  }

  /** `now`: the title of the current source, if there is one. */
  function NowPlaying(p: PlayerState): (r: Option<string>)
    ensures r.Some? <==> p.current.Some?
    ensures r.Some? ==> r.value == p.current.value.title
  {
    if p.current.Some? then Some(p.current.value.title) else None
  }
}
