/** Routing of transport-control buttons to playlist commands (src/module.cpp, the ButtonPressed handler). */
module Buttons {
  import opened Wrappers

  /** `SystemMediaTransportControlsButton`: every button the controls can report. */
  datatype Button =
    | Play | Pause | Stop | Record | FastForward | Rewind | Next | Previous | ChannelUp | ChannelDown

  /** The playlist control calls: playlist_Play, playlist_Pause, playlist_Stop, playlist_Next, playlist_Prev. */
  datatype PlaylistCommand = PlaylistPlay | PlaylistPause | PlaylistStop | PlaylistNext | PlaylistPrev

  /** The buttons the handler's switch has a case for. */
  const RoutedButtons: set<Button> := {Play, Pause, Stop, Next, Previous}

  /**
    The command the switch issues for a button: each of the five routed
    buttons has its own command, and every other button issues none.
   */
  function CommandFor(b: Button): (r: Option<PlaylistCommand>)
    ensures r == Some(PlaylistPlay) <==> b == Play
    ensures r == Some(PlaylistPause) <==> b == Pause
    ensures r == Some(PlaylistStop) <==> b == Stop
    ensures r == Some(PlaylistNext) <==> b == Next
    ensures r == Some(PlaylistPrev) <==> b == Previous
    ensures r.None? <==> b !in RoutedButtons
  {
    match b
    case Play => Some(PlaylistPlay)
    case Pause => Some(PlaylistPause)
    case Stop => Some(PlaylistStop)
    case Next => Some(PlaylistNext)
    case Previous => Some(PlaylistPrev)
    case _ => None
  }
}
