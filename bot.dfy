/** The bot: the module-level `players` registry with its create-on-demand lookup,
    and the command handlers that change a guild's player and voice connection.
    Each handler is proved against the matching function of `Session`, on the view
    of one guild, and touches no other guild's player. */
module Bot {
  import opened Model
  import opened Voice
  import opened Player
  import Session

  type GuildId = int

  class MusicBot {
    var players: map<GuildId, MusicPlayer>

    /** Every player is coherent, and no two guilds share a player object. */
    ghost predicate Valid()
      reads this, players.Values
    {
      && (forall g | g in players :: players[g].Valid())
      && (forall g, h | g in players && h in players && g != h :: players[g] != players[h])
    }

    /** The state of guild `g`'s player; a guild without one yet reads as a fresh
        player, which is what `get_player` would create. */
    function PlayerOf(g: GuildId): PlayerState
      reads this, players.Values
    {
      if g in players then players[g].State() else FreshPlayer
    }

    /** Guild `g` as a `Session.Guild` value, with `vc` as its voice connection. */
    function View(g: GuildId, vc: VoiceClient): Session.Guild
      reads this, players.Values, vc
    {
      Session.Guild(PlayerOf(g), vc.State())
    }

    /** Between the two states, at most guild `g` gained a player, no existing entry
        was replaced, and every other guild's player kept its state. */
    twostate predicate Confined(g: GuildId)
      reads this, players.Values
    {
      && old(players).Keys <= players.Keys <= old(players).Keys + {g}
      && (forall h | h in old(players) :: players[h] == old(players[h]))
      && (forall h | h in old(players) && h != g :: players[h].State() == old(players[h].State()))
    }

    constructor ()
      ensures players == map[] && Valid()
    {
      players := map[];
    }

    /** `get_player`: returns guild `g`'s player, creating and registering a fresh
        one first if the guild has none. Repeated calls return the same object. */
    method GetPlayer(g: GuildId) returns (p: MusicPlayer)
      requires Valid()
      modifies this
      ensures Valid()
      ensures g in players && players[g] == p
      ensures g in old(players) ==> players == old(players)
      ensures g !in old(players) ==> fresh(p) && players == old(players)[g := p]
      ensures p.State() == old(PlayerOf(g))
    {
      if g !in players {
        var created := new MusicPlayer();
        players := players[g := created];
      }
      p := players[g];
    }

    /** `play`, from the point where the request has been resolved to `t`. */
    method Play(g: GuildId, vc: VoiceClient, t: Track)
      requires Valid()
      modifies this, players.Values, vc
      ensures Valid() && Confined(g)
      ensures View(g, vc) == Session.Play(old(View(g, vc)), t)
    {
      ghost var before := View(g, vc);
      var p := GetPlayer(g);
      assert before == Session.Guild(p.State(), vc.State());
      var src := t.(volume := p.volume);
      if !vc.IsPlaying() && !vc.IsPaused() && p.current == None {
        p.current := Some(src);
        vc.Play(src);
      } else {
        p.Add(src);
      }
      assert View(g, vc) == Session.Guild(p.State(), vc.State());
    }

    /** `play_next`: advances guild `g` to the source its player's `next` returns. */
    method PlayNext(g: GuildId, vc: VoiceClient)
      requires Valid()
      modifies this, players.Values, vc
      ensures Valid() && Confined(g)
      ensures View(g, vc) == Session.PlayNext(old(View(g, vc)))
    {
      var p := GetPlayer(g);
      var next := p.Next();
      if next == None {
        p.current := None;
        return;
      }
      p.current := next;
      vc.Play(next.value);
    }

    /** The event loop runs one `play_next` that a completion callback scheduled. */
    method Deliver(g: GuildId, vc: VoiceClient)
      requires Valid()
      modifies this, players.Values, vc
      ensures Valid() && Confined(g)
      ensures View(g, vc) == Session.Deliver(old(View(g, vc)))
    {
      var taken := vc.TakeCallback();
      if taken {
        PlayNext(g, vc);
      }
    }

    /** `pause`. */
    method Pause(g: GuildId, vc: VoiceClient)
      modifies vc
      ensures View(g, vc) == Session.Pause(old(View(g, vc)))
    {
      if vc.IsPlaying() {
        vc.Pause();
      }
    }

    /** `resume`. */
    method Resume(g: GuildId, vc: VoiceClient)
      modifies vc
      ensures View(g, vc) == Session.Resume(old(View(g, vc)))
    {
      if vc.IsPaused() {
        vc.Resume();
      }
    }

    /** `skip`: only stops the device; the completion callback does the advancing. */
    method Skip(g: GuildId, vc: VoiceClient)
      modifies vc
      ensures View(g, vc) == Session.Skip(old(View(g, vc)))
    {
      if vc.IsPlaying() {
        vc.Stop();
      }
    }

    /** `stop`. */
    method Stop(g: GuildId, vc: VoiceClient)
      requires Valid()
      modifies this, players.Values, vc
      ensures Valid() && Confined(g)
      ensures View(g, vc) == Session.Stop(old(View(g, vc)))
    {
      if vc.IsPlaying() {
        vc.Stop();
      }
      var p := GetPlayer(g);
      p.current := None;
    }

    /** `remove`: returns the removed source, or None for an invalid index. */
    method Remove(g: GuildId, index: int) returns (removed: Option<Track>)
      requires Valid()
      modifies this, players.Values
      ensures Valid() && Confined(g)
      ensures Model.Remove(old(PlayerOf(g)), index) == Taken(removed, PlayerOf(g))
    {
      var p := GetPlayer(g);
      var k := index - 1;
      if 0 <= k < |p.queue| {
        removed := Some(p.queue[k]);
        p.queue := p.queue[..k] + p.queue[k + 1..];
      } else {
        removed := None;
      }
    }

    /** `clear`. */
    method Clear(g: GuildId)
      requires Valid()
      modifies this, players.Values
      ensures Valid() && Confined(g)
      ensures PlayerOf(g) == Model.Clear(old(PlayerOf(g)))
    {
      var p := GetPlayer(g);
      p.queue := [];
    }

    /** `volume`: the range is checked before the player is looked up. */
    method Volume(g: GuildId, percent: int)
      requires Valid()
      modifies this, players.Values
      ensures Valid() && Confined(g)
      ensures !(0 <= percent <= MaxVolume) ==> players == old(players)
      ensures PlayerOf(g) == SetVolume(old(PlayerOf(g)), percent)
    {
      if !(0 <= percent <= MaxVolume) {
        return;
      }
      var p := GetPlayer(g);
      p.volume := percent;
      if p.current.Some? {
        p.current := Some(p.current.value.(volume := percent));
      }
    }

    /** `loop`. */
    method Loop(g: GuildId)
      requires Valid()
      modifies this, players.Values
      ensures Valid() && Confined(g)
      ensures PlayerOf(g) == ToggleLoop(old(PlayerOf(g)))
    {
      var p := GetPlayer(g);
      p.loopSong := !p.loopSong;
      p.loopQueue := false;
    }

    /** `loopqueue`. */
    method LoopQueue(g: GuildId)
      requires Valid()
      modifies this, players.Values
      ensures Valid() && Confined(g)
      ensures PlayerOf(g) == ToggleLoopQueue(old(PlayerOf(g)))
    {
      var p := GetPlayer(g);
      p.loopQueue := !p.loopQueue;
      p.loopSong := false;
    }

    /** `queue`: the titles of guild `g`'s queued sources, head first (an empty
        result is reported as an empty queue). */
    method ListQueue(g: GuildId) returns (titles: seq<string>)
      requires Valid()
      modifies this
      ensures Valid() && Confined(g)
      ensures PlayerOf(g) == old(PlayerOf(g))
      ensures |titles| == |PlayerOf(g).queue|
      ensures forall i | 0 <= i < |titles| :: titles[i] == PlayerOf(g).queue[i].title
    {
      var p := GetPlayer(g);
      titles := [];
      var i := 0;
      while i < |p.queue|
        invariant 0 <= i <= |p.queue|
        invariant |titles| == i
        invariant forall j | 0 <= j < i :: titles[j] == p.queue[j].title
      {
        titles := titles + [p.queue[i].title];
        i := i + 1;
      }
    }

    /** `now`: the title of guild `g`'s current source, if any. */
    method Now(g: GuildId) returns (title: Option<string>)
      requires Valid()
      modifies this
      ensures Valid() && Confined(g)
      ensures PlayerOf(g) == old(PlayerOf(g))
      ensures title == NowPlaying(PlayerOf(g))
    {
      var p := GetPlayer(g);
      title := if p.current.Some? then Some(p.current.value.title) else None;
    }
  }
}
