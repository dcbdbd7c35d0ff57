/**
 * The documents of the hosted database that the playlist layer reads and
 * writes. JavaScript's falsy `null`/`undefined`/"" are the empty string in
 * string fields; fields whose type the code tests (`typeof ... === 'string'`,
 * `Array.isArray`) are `Option`s.
 */
module Docs {

  import opened Common

  /** A song document: `{title, content, userId, _source, _fromUid}`. */
  datatype SongDoc = SongDoc(title: string, content: Option<string>, owner: string, source: string, fromUid: string)

  /** Sender details recorded on a playlist created from a share. */
  datatype Provenance = Provenance(uid: string, email: string, displayName: string)

  /** A playlist document; `songs` is the legacy array of song ids. */
  datatype PlaylistDoc = PlaylistDoc(
    name: string,
    notes: string,
    from: Option<Provenance>,
    createdByShare: bool,
    songs: Option<seq<string>>)

  /** A playlist entry document, keyed by song id; `order` may be absent. */
  datatype Entry = Entry(order: Option<int>, transpose: int)

  /** One song carried by a copy-flavour message. */
  datatype Item = Item(title: string, content: Option<string>, transpose: Option<int>)

  /** Copy flavour: the message carries the songs themselves. */
  datatype CopyMsg = CopyMsg(
    items: Option<seq<Item>>,
    playlistName: string,
    notes: Option<string>,
    fromUid: string,
    fromEmail: string,
    fromDisplayName: string)

  /** Link flavour: the message points at a playlist its owner keeps. */
  datatype LinkMsg = LinkMsg(
    fromUid: string,
    ownerUid: string,
    playlistId: string,
    pid: string,
    playlistName: string,
    name: string,
    role: string,
    fromEmail: string,
    fromDisplayName: string)

  datatype Payload = Copy(copy: CopyMsg) | Link(link: LinkMsg)

  /** A document of the signed-in user's share inbox. */
  datatype InboxDoc = InboxDoc(processed: bool, payload: Payload)

  /** A grant: access to a playlist that stays owned by `ownerUid`. */
  datatype GrantDoc = GrantDoc(ownerUid: string, playlistId: string, playlistName: string, role: string)

  /** The live-session document the admin broadcasts. */
  datatype LiveDoc = LiveDoc(isActive: bool, currentSongId: string, currentSongTitle: string,
                             currentSongContent: string, transpose: int)

  /** A document returned by a collection query: its id and its data. */
  datatype Row<T> = Row(id: string, doc: T)
}
