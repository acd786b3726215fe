/** The records of `types.ts` (and the `User` shape that `pages/Auth.tsx` builds), as values. */
module Types {

  datatype Option<+T> = None | Some(value: T)

  /** A catalog track. Optional text fields of the source are `Option`s; `isEncrypted` is cosmetic. */
  datatype Song = Song(
    id: string,
    title: string,
    bibleReference: string,
    lyrics: Option<string>,
    description: Option<string>,
    album: string,
    coverUrl: string,
    audioUrl: string,
    duration: nat,
    isEncrypted: bool)

  datatype Album = Album(
    id: string,
    title: string,
    author: string,
    coverUrl: string,
    year: int,
    songs: seq<string>)

  /** A playlist holds song ids, in play order. An absent `isUserCreated` reads as false. */
  datatype Playlist = Playlist(
    id: string,
    title: string,
    description: string,
    coverUrl: string,
    songs: seq<string>,
    isUserCreated: bool)

  datatype PlaybackState = Paused | Playing | Buffering

  datatype Faith = Catholic | Evangelical

  datatype Gender = Male | Female | Other | PreferNotSay

  /** A signed-in user. Times are milliseconds since the epoch. */
  datatype User = User(
    id: string,
    name: string,
    email: string,
    isPremium: bool,
    isTrial: bool,
    trialEndsAt: Option<int>,
    avatarUrl: string,
    birthdate: Option<string>,
    gender: Option<Gender>,
    faith: Option<Faith>)
}
