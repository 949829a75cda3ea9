/** The decoded `data` object of the presence service's reply. Every JSON key
    may be absent (`Option`), a list that is absent is the empty list, and
    Python's truthiness tests on values become the predicates below. */
module Payload {
  import opened Wrappers

  datatype DiscordUser = DiscordUser(
    username: Option<string>,
    id: Option<string>,
    discriminator: Option<string>)

  /** Epoch milliseconds at which the track started and will end. */
  datatype Timestamps = Timestamps(start: Option<int>, end: Option<int>)

  /** The `spotify` object. `otherKeys` names the keys present in the object
      other than the six above, which the server never reads; they matter
      only to its truthiness. By convention it holds none of "song",
      "artist", "album", "album_art_url", "track_id" or "timestamps": a
      present modelled key is the `Some` of its field. */
  datatype SpotifyRecord = SpotifyRecord(
    song: Option<string>,
    artist: Option<string>,
    album: Option<string>,
    albumArtUrl: Option<string>,
    trackId: Option<string>,
    timestamps: Option<Timestamps>,
    otherKeys: set<string>)
  {
    /** The object is `{}`, which Python treats as false. */
    predicate IsEmpty() {
      && song.None? && artist.None? && album.None? && albumArtUrl.None?
      && trackId.None? && timestamps.None? && otherKeys == {}
    }
  }

  datatype Activity = Activity(
    name: Option<string>,
    activityType: Option<int>,
    details: Option<string>,
    state: Option<string>)

  /** One entry of the `kv` object; the list keeps the object's insertion order. */
  datatype KvPair = KvPair(key: string, value: string)

  datatype PresenceData = PresenceData(
    discordUser: DiscordUser,
    discordStatus: Option<string>,
    activeOnDesktop: bool,
    activeOnMobile: bool,
    listeningToSpotify: bool,
    spotify: Option<SpotifyRecord>,
    activities: seq<Activity>,
    kv: seq<KvPair>)

  /** Python truthiness of an optional string: present and non-empty. */
  predicate Truthy(s: Option<string>) {
    s.Some? && s.value != ""
  }

  /** Python truthiness of an optional number: present and non-zero. */
  predicate NonZero(t: Option<int>) {
    t.Some? && t.value != 0
  }

  /** Python truthiness of the `spotify` value: present and not `{}`. */
  predicate SpotifyPresent(sp: Option<SpotifyRecord>) {
    sp.Some? && !sp.value.IsEmpty()
  }
}
