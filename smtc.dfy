/**
  The bookkeeping of `intf_sys_t` (src/module.cpp) and the handlers that change
  it: the input callback, the playlist callback, one pass of the advertiser
  thread's loop and the button handler.

  Everything the module does to the outside world is appended to an effect
  log. `Sys` is the state as a value; the class `IntfSys` holds the same
  fields and its methods are proved to move them exactly as the functions
  over `Sys` do, so the trace lemmas (module Traces) speak about the class.
 */
module Smtc {
  import opened Wrappers
  import opened PlaybackStatus
  import opened Metadata
  import opened Buttons

  /** VLC's success code, which both callbacks return. */
  const VLC_SUCCESS: int := 0

  // `input_event_type_e` of VLC 3: the two event kinds the input callback tells apart.
  const INPUT_EVENT_STATE: int := 0
  const INPUT_EVENT_DEAD: int := 1

  /** Identity of a player input (an `input_thread_t *` that is not null). */
  type InputId = nat

  /** One observable action of the module, in the order it happens. */
  datatype Effect =
    | SetStatus(status: MediaPlaybackStatus)  // PlaybackStatus(..) then Disp().Update()
    | ShowMetadata(info: TrackInfo)           // Title, Artist, default Thumbnail, then Disp().Update()
    | Hold(id: InputId)                       // vlc_object_hold
    | Subscribe(id: InputId)                  // var_AddCallback(input, "intf-event", ..)
    | Release(id: InputId)                    // vlc_object_release
    | LockPlaylist                            // playlist_Lock
    | Issue(cmd: PlaylistCommand)             // playlist_Play, _Pause, _Stop, _Next, _Prev
    | UnlockPlaylist                          // playlist_Unlock

  /**
    The fields `input`, `input_state`, `advertise` and `metadata_advertised`,
    and the log. `inputState` is None until the first state event: the
    constructor leaves `input_state` uninitialised.
   */
  datatype Sys = Sys(
    input: Option<InputId>,
    inputState: Option<int>,
    advertise: bool,
    metadataAdvertised: bool,
    log: seq<Effect>)

  /** The state the constructor sets up. */
  const Initial: Sys := Sys(None, None, false, false, [])

  /** The advertiser only reads `input_state` once some state event has written it. */
  predicate Valid(s: Sys)
  {
    s.advertise ==> s.inputState.Some?
  }

  /** Number of metadata publishes in a log. */
  function MetadataCount(log: seq<Effect>): nat
  {
    if log == [] then 0
    else MetadataCount(log[..|log| - 1]) + (if log[|log| - 1].ShowMetadata? then 1 else 0)
  }

  lemma {:induction false} MetadataCountAppend(a: seq<Effect>, b: seq<Effect>)
    ensures MetadataCount(a + b) == MetadataCount(a) + MetadataCount(b)
    decreases |b|
  {
    if b != [] {
      var b' := b[..|b| - 1];
      assert (a + b)[..|a + b| - 1] == a + b';
      MetadataCountAppend(a, b');
    } else {
      assert a + b == a;
    }
  }

  /** InputEvent. None when a death event finds no input held: the source's assertion fails. */
  function OnInputEvent(s: Sys, code: int, reported: int): Option<Sys>
  {
    if code == INPUT_EVENT_STATE then
      Some(s.(advertise := true, inputState := Some(reported)))
    else if code == INPUT_EVENT_DEAD then
      match s.input
      case None => None
      case Some(id) => Some(s.(input := None, log := s.log + [Release(id)]))
    else
      Some(s)
  }

  /** PlaylistEvent: a null input is ignored; otherwise the new input is held and subscribed to. */
  function OnTrackChange(s: Sys, next: Option<InputId>): Sys
  {
    match next
    case None => s
    case Some(id) => s.(metadataAdvertised := false, input := Some(id), log := s.log + [Hold(id), Subscribe(id)])
  }

  /** What ReadAndAdvertiseMetadata publishes: nothing when no input is held. */
  function MetadataEffects(input: Option<InputId>, meta: InputId -> Item): seq<Effect>
  {
    match input
    case None => []
    case Some(id) => [ShowMetadata(ReadMetadata(meta(id)))]
  }

  /**
    One pass of the advertiser loop once the wait has seen `advertise`:
    publish the status of the latest state, then the metadata if the state is
    at least PLAYING_S and the current track's metadata is not yet out, and
    clear the pending flag. `meta` is what the player reports for an input's
    item at this moment.
   */
  function Advertise(s: Sys, meta: InputId -> Item): (r: Sys)
    requires s.advertise && s.inputState.Some?
    ensures !r.advertise
    ensures r.input == s.input && r.inputState == s.inputState
    ensures r.metadataAdvertised == (s.metadataAdvertised || s.inputState.value >= PLAYING_S)
    ensures |s.log| < |r.log| <= |s.log| + 2 && r.log[..|s.log|] == s.log
    ensures r.log[|s.log|] == SetStatus(StatusOf(s.inputState.value))
    ensures |r.log| == |s.log| + 2 <==>
              s.inputState.value >= PLAYING_S && !s.metadataAdvertised && s.input.Some?
    ensures |r.log| == |s.log| + 2 ==>
              r.log[|s.log| + 1] == ShowMetadata(ReadMetadata(meta(s.input.value)))
    ensures MetadataCount(r.log) == MetadataCount(s.log) + |r.log| - |s.log| - 1
  {
    var st := s.inputState.value;
    var published := s.log + [SetStatus(StatusOf(st))];
    assert published[..|published| - 1] == s.log;
    if st >= PLAYING_S && !s.metadataAdvertised then
      var extra := MetadataEffects(s.input, meta);
      MetadataCountAppend(published, extra);
      assert MetadataCount(extra) == |extra| by {
        if extra != [] { assert extra[..0] == []; }
      }
      s.(log := published + extra, metadataAdvertised := true, advertise := false)
    else
      s.(log := published, advertise := false)
  }

  /** The lock, the matching command if there is one, and the unlock. */
  function ButtonEffects(b: Button): (r: seq<Effect>)
    ensures |r| >= 2 && r[0] == LockPlaylist && r[|r| - 1] == UnlockPlaylist
    ensures forall i :: 0 < i < |r| - 1 ==> CommandFor(b).Some? && r[i] == Issue(CommandFor(b).value)
    ensures |r| == 3 <==> b in RoutedButtons
    ensures |r| == 2 <==> b !in RoutedButtons
  {
    [LockPlaylist] + (match CommandFor(b) case Some(c) => [Issue(c)] case None => []) + [UnlockPlaylist]
  }

  /** The button handler: only the log changes. */
  function OnButton(s: Sys, b: Button): Sys
  {
    s.(log := s.log + ButtonEffects(b))
  }

  /** `intf_sys_t`: the fields the callbacks and the advertiser thread update in place. */
  class IntfSys {
    var input: Option<InputId>
    var inputState: Option<int>
    var advertise: bool
    var metadataAdvertised: bool
    var log: seq<Effect>

    /** The fields as a value. */
    function State(): Sys
      reads this
    {
      Sys(input, inputState, advertise, metadataAdvertised, log)
    }

    constructor ()
      ensures State() == Initial && Valid(State())
    {
      input := None;
      inputState := None;
      advertise := false;
      metadataAdvertised := false;
      log := [];
    }

    /**
      InputEvent: a state event overwrites the one slot and raises the pending
      flag; a death event releases and drops the held input; other events
      change nothing. It always returns VLC_SUCCESS.
     */
    method InputEvent(code: int, reported: int) returns (rc: int)
      requires Valid(State())
      requires code == INPUT_EVENT_DEAD ==> input.Some?
      modifies this
      ensures rc == VLC_SUCCESS && Valid(State())
      ensures Some(State()) == OnInputEvent(old(State()), code, reported)
      ensures code == INPUT_EVENT_STATE ==>
                advertise && inputState == Some(reported) && input == old(input) &&
                metadataAdvertised == old(metadataAdvertised) && log == old(log)
      ensures code == INPUT_EVENT_DEAD ==>
                input.None? && log == old(log) + [Release(old(input).value)] &&
                inputState == old(inputState) && advertise == old(advertise) &&
                metadataAdvertised == old(metadataAdvertised)
      ensures code != INPUT_EVENT_STATE && code != INPUT_EVENT_DEAD ==> State() == old(State())
    {
      if code == INPUT_EVENT_STATE {
        advertise := true;
        inputState := Some(reported);
      } else if code == INPUT_EVENT_DEAD {
        log := log + [Release(input.value)];
        input := None;
      }
      rc := VLC_SUCCESS;
    }

    /**
      PlaylistEvent: a null input changes nothing. Otherwise the track's
      metadata is marked unadvertised and the new input is held and subscribed
      to; a previously held input is not released. It always returns VLC_SUCCESS.
     */
    method PlaylistEvent(next: Option<InputId>) returns (rc: int)
      requires Valid(State())
      modifies this
      ensures rc == VLC_SUCCESS && Valid(State())
      ensures State() == OnTrackChange(old(State()), next)
      ensures next.None? ==> State() == old(State())
      ensures next.Some? ==>
                input == next && !metadataAdvertised &&
                log == old(log) + [Hold(next.value), Subscribe(next.value)] &&
                inputState == old(inputState) && advertise == old(advertise)
    {
      if next.None? {
        return VLC_SUCCESS;
      }
      metadataAdvertised := false;
      log := log + [Hold(next.value), Subscribe(next.value)];
      input := next;
      rc := VLC_SUCCESS;
    }

    /** AdvertiseState: publish the mapped status of the latest state. */
    method AdvertiseState()
      requires inputState.Some?
      modifies this`log
      ensures log == old(log) + [SetStatus(StatusOf(inputState.value))]
    {
      log := log + [SetStatus(StatusOf(inputState.value))];
    }

    /** ReadAndAdvertiseMetadata: publish title and artist of the held input, if any. */
    method ReadAndAdvertiseMetadata(meta: InputId -> Item)
      modifies this`log
      ensures log == old(log) + MetadataEffects(input, meta)
    {
      if input.None? {
        return;
      }
      var info := ReadMetadata(meta(input.value));
      log := log + [ShowMetadata(info)];
    }

    /**
      One pass of the advertiser thread's loop after its wait returned:
      status first, metadata at most once per track, and the pending flag
      always cleared.
     */
    method AdvertiseStep(meta: InputId -> Item)
      requires Valid(State()) && advertise
      modifies this
      ensures Valid(State()) && !advertise
      ensures State() == Advertise(old(State()), meta)
      ensures input == old(input) && inputState == old(inputState)
      ensures log[..|old(log)|] == old(log) && log[|old(log)|] == SetStatus(StatusOf(inputState.value))
      ensures metadataAdvertised == (old(metadataAdvertised) || inputState.value >= PLAYING_S)
    {
      AdvertiseState();
      if inputState.value >= PLAYING_S && !metadataAdvertised {
        ReadAndAdvertiseMetadata(meta);
        metadataAdvertised := true;
      }
      advertise := false;
    }

    /**
      The ButtonPressed handler: lock the playlist, issue the button's command
      if it has one, unlock. The advertiser's fields are untouched.
     */
    method ButtonPressed(b: Button)
      modifies this`log
      ensures log == old(log) + ButtonEffects(b)
      ensures State() == OnButton(old(State()), b)
    {
      log := log + [LockPlaylist];
      match CommandFor(b) {
        case Some(c) => log := log + [Issue(c)];
        case None =>
      }
      log := log + [UnlockPlaylist];
    }
  }
}
