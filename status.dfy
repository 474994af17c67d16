/**
  The player's input lifecycle states and the total mapping onto the status
  shown by the Windows system media transport controls (src/module.cpp,
  AdvertiseState).
 */
module PlaybackStatus {

  // `input_state_e` of VLC 3 (vlc_input.h), in declaration order. States are
  // unbounded integers here: the input callback's cast of the reported value
  // to the enumeration is taken to keep it, so values outside these six also
  // reach the mapping.
  const INIT_S: int := 0
  const OPENING_S: int := 1
  const PLAYING_S: int := 2
  const PAUSE_S: int := 3
  const END_S: int := 4
  const ERROR_S: int := 5

  /** `MediaPlaybackStatus` of the transport controls. */
  datatype MediaPlaybackStatus = Closed | Changing | Stopped | Playing | Paused
  {
    /** The enumeration's integer value in the Windows API. */
    function Ordinal(): nat
    {
      match this
      case Closed => 0
      case Changing => 1
      case Stopped => 2
      case Playing => 3
      case Paused => 4
    }
  }

  /** The static lookup table of AdvertiseState; every other state is absent from it. */
  const StatusTable: map<int, MediaPlaybackStatus> :=
    map[OPENING_S := Changing, PLAYING_S := Playing, PAUSE_S := Paused, END_S := Stopped]

  /**
    `map[input_state]`: the table's entry, or the value-initialised default
    for a state the table does not hold. The default is `Closed`, the status
    whose integer value is 0.
   */
  function StatusOf(state: int): (r: MediaPlaybackStatus)
    ensures r == Changing <==> state == OPENING_S
    ensures r == Playing <==> state == PLAYING_S
    ensures r == Paused <==> state == PAUSE_S
    ensures r == Stopped <==> state == END_S
    ensures r.Ordinal() == 0 <==> state !in {OPENING_S, PLAYING_S, PAUSE_S, END_S}
  {
    if state in StatusTable then StatusTable[state] else Closed
  }
}
