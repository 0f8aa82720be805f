/** The guild's voice connection, reduced to what the queue logic observes: whether
    it is idle, playing or paused, how many completion callbacks it has fired that
    the bot's event loop has not yet run, and the sources it has been told to play.
    Audio, networking and threads are abstracted away. */
module Voice {
  import opened Model

  datatype Status = Idle | Playing | Paused

  /** `pending` counts the `after=` callbacks fired (each schedules one `play_next`
      on the bot's event loop) whose coroutine has not yet run; `started` is the
      history of sources handed to `play()`, oldest first. */
  datatype DeviceState = DeviceState(status: Status, pending: nat, started: seq<Track>)

  /** A freshly connected voice client. */
  const Connected: DeviceState := DeviceState(Idle, 0, [])

  /** `play(source, after=...)`: an idle device starts the source; a busy one
      refuses it and nothing changes. */
  function Start(d: DeviceState, t: Track): DeviceState {
    if d.status == Idle then DeviceState(Playing, d.pending, d.started + [t]) else d
  }

  /** `stop()`: playback ends and its completion callback fires. */
  function Halt(d: DeviceState): DeviceState {
    if d.status == Idle then d else d.(status := Idle, pending := d.pending + 1)
  }

  /** The source runs out: playback ends and its completion callback fires. */
  function RunOut(d: DeviceState): DeviceState {
    if d.status == Playing then d.(status := Idle, pending := d.pending + 1) else d
  }

  /** `pause()`. */
  function Suspend(d: DeviceState): DeviceState {
    if d.status == Playing then d.(status := Paused) else d
  }

  /** `resume()`. */
  function Continue(d: DeviceState): DeviceState {
    if d.status == Paused then d.(status := Playing) else d
  }

  /** The voice client object the command handlers receive as `ctx.voice_client`. */
  class VoiceClient {
    var status: Status
    var pending: nat
    var started: seq<Track>

    function State(): DeviceState
      reads this
    {
      DeviceState(status, pending, started)
    }

    constructor ()
      ensures State() == Connected
    {
      status, pending, started := Idle, 0, [];
    }

    predicate IsPlaying()
      reads this
    {
      status == Playing
    }

    predicate IsPaused()
      reads this
    {
      status == Paused
    }

    method Play(t: Track)
      modifies this
      ensures State() == Start(old(State()), t)
    {
      if status == Idle {
        status := Playing;
        started := started + [t];
      }
    }

    method Stop()
      modifies this
      ensures State() == Halt(old(State()))
    {
      if status != Idle {
        status := Idle;
        pending := pending + 1;
      }
    }

    method Pause()
      modifies this
      ensures State() == Suspend(old(State()))
    {
      if status == Playing {
        status := Paused;
      }
    }

    method Resume()
      modifies this
      ensures State() == Continue(old(State()))
    {
      if status == Paused {
        status := Playing;
      }
    }

    /** The source being played runs out. */
    method Finish()
      modifies this
      ensures State() == RunOut(old(State()))
    {
      if status == Playing {
        status := Idle;
        pending := pending + 1;
      }
    }

    /** The event loop picks up one scheduled `play_next`, if any. */
    method TakeCallback() returns (taken: bool)
      modifies this
      ensures taken == (old(pending) > 0)
      ensures State() == if taken then old(State()).(pending := old(pending) - 1) else old(State())
    {
      taken := pending > 0;
      if taken {
        pending := pending - 1;
      }
    }
  }
}
