/** The music server's track generator: a counter, captured by the closure
    that `trackGenerator` in cmd/music-server/player.go returns, that walks
    round-robin through a fixed list of ten track URIs. The closure becomes a
    class whose field is the captured counter. */
module Player {

  /** The fixed playlist. */
  const Tracks: seq<string> := [
    "spotify:track:6ADzlFXHPk846zUCEOM2C1",
    "spotify:track:1eVnOimXaPos2ua7Rxb7vY",
    "spotify:track:0nOm9qJ8lChfshtWsMNGX5",
    "spotify:track:21GdrXAPYwIZPAFx6JaAxh",
    "spotify:track:35KJGai6SDpUR65mMJ6lkP",
    "spotify:track:5lpOIzbl08NopnkBYMC2cq",
    "spotify:track:6z4EdxNQRQbah5yMpz2CSL",
    "spotify:track:6LnE7XmNCJrRkUufVwJyLE",
    "spotify:track:7oBAd2YeVYN8i0ShTppfRC",
    "spotify:track:0nHV2PFo3cSocA0Bk1ebIH"
  ]

  /** The track handed out by the call that finds the counter at `n`. The
      list is not empty, so the index is always in range. */
  function TrackAt(n: nat): (track: string)
    ensures track in Tracks
  {
    Tracks[n % |Tracks|]
  }

  /** The playlist repeats every ten calls, and starts with its first entry. */
  lemma TrackAtPeriodic(n: nat)
    ensures |Tracks| == 10
    ensures TrackAt(n + 10) == TrackAt(n)
    ensures TrackAt(0) == "spotify:track:6ADzlFXHPk846zUCEOM2C1"
  {
  }

  class TrackGenerator {
    /** The captured counter: how many tracks have been handed out. */
    var currentTrack: nat

    constructor ()
      ensures currentTrack == 0
    {
      currentTrack := 0;
    }

    /** Returns the track at the counter, modulo the list length, then
        advances the counter by one. */
    method Next() returns (track: string)
      modifies this
      ensures track == TrackAt(old(currentTrack))
      ensures currentTrack == old(currentTrack) + 1
    {
      track := Tracks[currentTrack % |Tracks|];
      currentTrack := currentTrack + 1;
    }
  }

  /** A fresh generator asked `n` times, as the player's loop asks it each
      time nothing is playing: call `i` returns the track at `i`, the first
      call returns the first track, and calls ten apart return the same track. */
  method PlayOrder(n: nat) returns (played: seq<string>)
    ensures |played| == n
    ensures forall i :: 0 <= i < n ==> played[i] == TrackAt(i)
    ensures n > 0 ==> played[0] == "spotify:track:6ADzlFXHPk846zUCEOM2C1"
    ensures forall i :: 0 <= i < n - 10 ==> played[i] == played[i + 10]
  {
    var next := new TrackGenerator();
    played := [];
    while |played| < n
      invariant |played| <= n
      invariant next.currentTrack == |played|
      invariant forall i :: 0 <= i < |played| ==> played[i] == TrackAt(i)
    {
      var track := next.Next();
      played := played + [track];
    }
    forall i | 0 <= i < n - 10 ensures played[i] == played[i + 10] {
      TrackAtPeriodic(i);
    }
  }
}
