/** `MusicPlayer`: one guild's queue, current source, loop flags and volume, updated
    in place. The command handlers also assign its fields directly. */
module Player {
  import opened Model

  class MusicPlayer {
    var queue: seq<Track>
    var current: Option<Track>
    var loopSong: bool
    var loopQueue: bool
    var volume: nat

    function State(): PlayerState
      reads this
    {
      PlayerState(queue, current, loopSong, loopQueue, volume)
    }

    predicate Valid()
      reads this
    {
      Coherent(State())
    }

    /** An empty queue, nothing current, both loops off, volume 0.5. */
    constructor ()
      ensures State() == FreshPlayer && Valid()
    {
      queue := [];
      current := None;
      loopSong := false;
      loopQueue := false;
      volume := DefaultVolume;
    }

    method Add(t: Track)
      requires Valid()
      modifies this
      ensures Valid()
      ensures State() == Model.Add(old(State()), t)
    {
      queue := queue + [t];
    }

    /** Returns the source to play next and updates the queue as `Model.Next` says;
        `current` is not touched. */
    method Next() returns (r: Option<Track>)
      requires Valid()
      modifies this
      ensures Valid()
      ensures Model.Next(old(State())) == Taken(r, State())
    {
      if loopSong && current.Some? {
        return current;
      }
      if loopQueue && current.Some? {
        queue := queue + [current.value];
      }
      if queue != [] {
        r := Some(queue[0]);
        queue := queue[1..];
        return;
      }
      r := None;
    }
  }
}
