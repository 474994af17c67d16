/**
  The title and artist published for the current track, with the fixed
  placeholders used when the player has no value (src/module.cpp,
  ReadAndAdvertiseMetadata).
 */
module Metadata {
  import opened Wrappers

  const UNKNOWN_TITLE: string := "Unknown Title"
  const UNKNOWN_ARTIST: string := "Unknown Artist"

  /**
    What the player reports for the item of an input: the result of
    `input_item_GetTitleFbName` (the title, or the item's name when it has
    none) and of `input_item_GetArtist`; each may be null.
   */
  datatype Item = Item(titleFbName: Option<string>, artist: Option<string>)

  /** The two music properties handed to the display updater. */
  datatype TrackInfo = TrackInfo(title: string, artist: string)

  /** The `to_hstring` helper: the string the player returned, else the placeholder. */
  function OrPlaceholder(buf: Option<string>, def: string): string
  {
    match buf
    case Some(s) => s
    case None => def
  }

  /**
    The title and artist shown for an item. A field the player reports is
    shown as is; a missing one shows its placeholder. A shown title or artist
    other than the placeholder is therefore exactly what the player reported.
   */
  function ReadMetadata(item: Item): (r: TrackInfo)
    ensures item.titleFbName.Some? ==> r.title == item.titleFbName.value
    ensures item.titleFbName.None? ==> r.title == UNKNOWN_TITLE
    ensures item.artist.Some? ==> r.artist == item.artist.value
    ensures item.artist.None? ==> r.artist == UNKNOWN_ARTIST
    ensures r.title != UNKNOWN_TITLE ==> item.titleFbName == Some(r.title)
    ensures r.artist != UNKNOWN_ARTIST ==> item.artist == Some(r.artist)
  {
    TrackInfo(OrPlaceholder(item.titleFbName, UNKNOWN_TITLE), OrPlaceholder(item.artist, UNKNOWN_ARTIST))
  }
}
