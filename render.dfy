/** What each tool makes of a successful reply: the full presence text of
    `get_user_presence`, the Spotify text of `get_user_spotify` and the KV text
    of `get_user_kv`. As in Format, each is a function listing the pieces the
    text is appended from, and a method that appends them as the server does. */
module Render {
  import opened Wrappers
  import opened Text
  import opened Payload
  import opened Format

  function Username(user: DiscordUser): string {
    user.username.GetOr(Unknown)
  }

  /** `@name` when the discriminator is "0" (also its default), `name#tag`
      for an account that still has a legacy tag. */
  function DisplayName(user: DiscordUser): (display: string)
    ensures user.discriminator.GetOr("0") == "0" ==> display == "@" + Username(user)
    ensures user.discriminator.GetOr("0") != "0" ==> display == Username(user) + "#" + user.discriminator.value
  {
    var discriminator := user.discriminator.GetOr("0");
    if discriminator == "0" then "@" + Username(user) else Username(user) + "#" + discriminator
  }

  const StatusEmojis: map<string, string> := map[
    "online" := "🟢",
    "idle" := "🟡",
    "dnd" := "🔴",
    "offline" := "⚫"]

  const DefaultEmoji := "⚪"

  /** The emoji for a status; the default emoji marks every status outside
      the table, and only those. */
  function StatusEmoji(status: string): (emoji: string)
    ensures status in StatusEmojis ==> emoji == StatusEmojis[status]
    ensures emoji == DefaultEmoji <==> status !in StatusEmojis
    ensures |emoji| == 1 && !IsSpace(emoji[0])
  {
    if status in StatusEmojis then StatusEmojis[status] else DefaultEmoji
  }

  // ---------------------------------------------------------------------------
  // get_user_presence

  function PresenceHeader(user: DiscordUser, cleanId: string): string {
    "✅ Discord Presence for " + DisplayName(user) + " (" + user.id.GetOr(cleanId) + ")\n\n"
  }

  function StatusLine(status: string): string {
    "Status: " + StatusEmoji(status) + " " + Upper(status) + "\n\n"
  }

  function Status(d: PresenceData): string {
    d.discordStatus.GetOr("unknown")
  }

  /** The presence text before stripping, as the server appends it: the
      header and the status line, a line per active device, a blank line,
      then the Spotify block when listening, the activities when there are
      any and the KV block when there is KV data. */
  function PresenceDocument(d: PresenceData, cleanId: string, fmt: TimestampFormatter): string {
    var opening := PresenceHeader(d.discordUser, cleanId) + StatusLine(Status(d));
    var desktop := if d.activeOnDesktop then opening + "💻 Active on Desktop\n" else opening;
    var mobile := if d.activeOnMobile then desktop + "📱 Active on Mobile\n" else desktop;
    var devices := mobile + "\n";
    var spotify := if d.listeningToSpotify && SpotifyPresent(d.spotify) then devices + SpotifyBlock(d.spotify, fmt) + "\n" else devices;
    var activities := if d.activities != [] then spotify + "🎮 Activities:" + ActivitiesBlock(d.activities) + "\n" else spotify;
    if d.kv != [] then activities + KvBlock(d.kv) else activities
  }

  function PresenceText(d: PresenceData, cleanId: string, fmt: TimestampFormatter): string {
    Trim(PresenceDocument(d, cleanId, fmt))
  }

  method RenderPresence(d: PresenceData, cleanId: string, fmt: TimestampFormatter) returns (text: string)
    ensures text == PresenceText(d, cleanId, fmt)
  {
    var output := PresenceHeader(d.discordUser, cleanId);

    var status := d.discordStatus.GetOr("unknown");
    output := output + ("Status: " + StatusEmoji(status) + " " + Upper(status) + "\n\n");

    if d.activeOnDesktop {
      output := output + "💻 Active on Desktop\n";
    }
    if d.activeOnMobile {
      output := output + "📱 Active on Mobile\n";
    }
    output := output + "\n";

    if d.listeningToSpotify && SpotifyPresent(d.spotify) {
      var block := FormatSpotifyData(d.spotify, fmt);
      output := output + block;
      output := output + "\n";
    }

    if d.activities != [] {
      output := output + "🎮 Activities:";
      var block := FormatActivities(d.activities);
      output := output + block;
      output := output + "\n";
    }

    if d.kv != [] {
      var block := FormatKvData(d.kv);
      output := output + block;
    }
    text := Trim(output);
  }

  /** The device lines: one per active device, desktop first. */
  function DeviceLines(d: PresenceData): string {
    (if d.activeOnDesktop then "💻 Active on Desktop\n" else "")
    + (if d.activeOnMobile then "📱 Active on Mobile\n" else "")
  }

  /** Shown only while listening to a non-empty Spotify record. */
  function SpotifySection(d: PresenceData, fmt: TimestampFormatter): string {
    if d.listeningToSpotify && SpotifyPresent(d.spotify) then SpotifyBlock(d.spotify, fmt) + "\n" else ""
  }

  /** Shown only if there are activities. */
  function ActivitiesSection(d: PresenceData): string {
    if d.activities != [] then "🎮 Activities:" + ActivitiesBlock(d.activities) + "\n" else ""
  }

  /** Shown only if there is KV data. */
  function KvSection(d: PresenceData): string {
    if d.kv != [] then KvBlock(d.kv) else ""
  }

  /** The presence document is its sections in a fixed order, each section
      empty exactly when its condition fails: for Spotify, listening with a
      non-empty record; for activities, a non-empty list; for KV, non-empty
      KV data. */
  lemma PresenceSections(d: PresenceData, cleanId: string, fmt: TimestampFormatter)
    ensures PresenceDocument(d, cleanId, fmt)
         == PresenceHeader(d.discordUser, cleanId) + StatusLine(Status(d)) + DeviceLines(d) + "\n"
            + SpotifySection(d, fmt) + ActivitiesSection(d) + KvSection(d)
  {
    AppendSteps(PresenceHeader(d.discordUser, cleanId) + StatusLine(Status(d)),
      d.activeOnDesktop, "💻 Active on Desktop\n", d.activeOnMobile, "📱 Active on Mobile\n",
      d.listeningToSpotify && SpotifyPresent(d.spotify), SpotifyBlock(d.spotify, fmt),
      d.activities != [], ActivitiesBlock(d.activities), d.kv != [], KvBlock(d.kv));
  }

  /** The append steps of the presence document, regrouped into sections. */
  lemma AppendSteps(opening: string, c1: bool, x1: string, c2: bool, x2: string,
                    c3: bool, x3: string, c4: bool, x4: string, c5: bool, x5: string)
    ensures var s1 := if c1 then opening + x1 else opening;
            var s2 := if c2 then s1 + x2 else s1;
            var s3 := s2 + "\n";
            var s4 := if c3 then s3 + x3 + "\n" else s3;
            var s5 := if c4 then s4 + "🎮 Activities:" + x4 + "\n" else s4;
            (if c5 then s5 + x5 else s5)
            == opening + ((if c1 then x1 else "") + (if c2 then x2 else "")) + "\n"
               + (if c3 then x3 + "\n" else "") + (if c4 then "🎮 Activities:" + x4 + "\n" else "")
               + (if c5 then x5 else "")
  {
    var s1 := if c1 then opening + x1 else opening;
    var s2 := if c2 then s1 + x2 else s1;
    var s3 := s2 + "\n";
    var s4 := if c3 then s3 + x3 + "\n" else s3;
    var s5 := if c4 then s4 + "🎮 Activities:" + x4 + "\n" else s4;
    var devices := (if c1 then x1 else "") + (if c2 then x2 else "");
    var spotify := if c3 then x3 + "\n" else "";
    var activities := if c4 then "🎮 Activities:" + x4 + "\n" else "";
    var kv := if c5 then x5 else "";
    assert s2 == opening + devices by {
      AppendOptional(opening, c1, x1);
      AppendOptional(s1, c2, x2);
    }
    assert s4 == s3 + spotify by {
      AppendOptional(s3, c3, x3 + "\n");
    }
    assert s5 == s4 + activities by {
      AppendOptional(s4, c4, "🎮 Activities:" + x4 + "\n");
    }
    AppendOptional(s5, c5, x5);
  }

  /** Appending a piece under a condition appends the piece or nothing. */
  lemma AppendOptional(s: string, c: bool, x: string)
    ensures (if c then s + x else s) == s + (if c then x else "")
  {
    if !c {
      assert s + "" == s;
    }
  }

  /** The presence document opens with the header naming the user and the
      status line's emoji. */
  lemma DocumentOpening(d: PresenceData, cleanId: string, fmt: TimestampFormatter)
    ensures var opening := PresenceHeader(d.discordUser, cleanId) + "Status: " + StatusEmoji(Status(d));
            |opening| <= |PresenceDocument(d, cleanId, fmt)| && PresenceDocument(d, cleanId, fmt)[..|opening|] == opening
    ensures PresenceDocument(d, cleanId, fmt) != [] && PresenceDocument(d, cleanId, fmt)[0] == '✅'
  {
    var opening := PresenceHeader(d.discordUser, cleanId) + "Status: " + StatusEmoji(Status(d));
    assert opening[0] == '✅';
    PresenceSections(d, cleanId, fmt);
    var tail := " " + Upper(Status(d)) + "\n\n" + DeviceLines(d) + "\n"
      + SpotifySection(d, fmt) + ActivitiesSection(d) + KvSection(d);
    Regroup(PresenceHeader(d.discordUser, cleanId), StatusEmoji(Status(d)), Upper(Status(d)),
      DeviceLines(d), SpotifySection(d, fmt), ActivitiesSection(d), KvSection(d));
    assert PresenceDocument(d, cleanId, fmt) == opening + tail;
  }

  /** The sections of the presence document, regrouped after the status emoji. */
  lemma Regroup(header: string, emoji: string, status: string, devices: string,
                spotify: string, activities: string, kv: string)
    ensures header + ("Status: " + emoji + " " + status + "\n\n") + devices + "\n" + spotify + activities + kv
         == (header + "Status: " + emoji) + (" " + status + "\n\n" + devices + "\n" + spotify + activities + kv)
  {
  }

  /** The presence text opens with the header naming the user and the status
      line's emoji, whatever follows. */
  lemma PresenceStartsWithHeader(d: PresenceData, cleanId: string, fmt: TimestampFormatter)
    ensures var opening := PresenceHeader(d.discordUser, cleanId) + "Status: " + StatusEmoji(Status(d));
            |opening| <= |PresenceText(d, cleanId, fmt)| && PresenceText(d, cleanId, fmt)[..|opening|] == opening
  {
    var opening := PresenceHeader(d.discordUser, cleanId) + "Status: " + StatusEmoji(Status(d));
    var doc := PresenceDocument(d, cleanId, fmt);
    DocumentOpening(d, cleanId, fmt);
    assert doc == opening + doc[|opening|..];
    assert opening[0] == '✅';
    TrimKeepsPrefix(opening, doc[|opening|..]);
  }

  /** With nothing optional to show, the text is the header and the status
      line, with the trailing blank lines stripped. */
  lemma PresenceBare(d: PresenceData, cleanId: string, fmt: TimestampFormatter)
    requires !d.activeOnDesktop && !d.activeOnMobile
    requires !(d.listeningToSpotify && SpotifyPresent(d.spotify)) && d.activities == [] && d.kv == []
    requires Status(d) != [] && !IsSpace(Status(d)[|Status(d)| - 1])
    ensures PresenceText(d, cleanId, fmt)
         == PresenceHeader(d.discordUser, cleanId) + "Status: " + StatusEmoji(Status(d)) + " " + Upper(Status(d))
  {
    var status := Status(d);
    var line := PresenceHeader(d.discordUser, cleanId) + "Status: " + StatusEmoji(status) + " " + Upper(status);
    assert PresenceDocument(d, cleanId, fmt) == line + "\n\n\n";
    assert line[|line| - 1] == UpperChar(status[|status| - 1]);
    TrimSpaceSuffix(line, "\n\n\n");
  }

  /** The KV block, when there is one, comes last, and only its trailing
      whitespace is stripped; everything before it is as without KV data. */
  lemma PresenceKvLast(d: PresenceData, cleanId: string, fmt: TimestampFormatter)
    requires d.kv != []
    ensures PresenceText(d, cleanId, fmt)
         == PresenceDocument(d.(kv := []), cleanId, fmt) + TrimRight(KvBlock(d.kv))
  {
    var before := PresenceDocument(d.(kv := []), cleanId, fmt);
    assert PresenceDocument(d, cleanId, fmt) == before + KvBlock(d.kv);
    DocumentOpening(d.(kv := []), cleanId, fmt);
    assert KvBlock(d.kv)[0] == '📝';
    TrimOpenedAppend(before, KvBlock(d.kv));
  }

  /** The Spotify record is not looked at unless the user is listening. */
  lemma PresenceIgnoresSpotifyUnlessListening(d: PresenceData, cleanId: string, fmt: TimestampFormatter)
    requires !d.listeningToSpotify
    ensures PresenceText(d, cleanId, fmt) == PresenceText(d.(spotify := None), cleanId, fmt)
  {
  }

  // ---------------------------------------------------------------------------
  // get_user_spotify

  function NotListeningText(username: string): string {
    "🎵 " + username + " is not currently listening to Spotify"
  }

  const TrackUrlBase := "https://open.spotify.com/track/"

  /** The Spotify text before stripping, as the server appends it: a header
      naming the user, the Spotify block, then an Album Art line and a Track
      URL line when those values are non-empty. */
  function SpotifyDocument(username: string, sp: SpotifyRecord, fmt: TimestampFormatter): string {
    var opening := "✅ Spotify Status for " + username + "\n\n" + SpotifyBlock(Some(sp), fmt);
    var art := if Truthy(sp.albumArtUrl) then opening + ("  Album Art: " + sp.albumArtUrl.value + "\n") else opening;
    if Truthy(sp.trackId) then art + ("  Track URL: " + TrackUrlBase + sp.trackId.value + "\n") else art
  }

  function SpotifyText(d: PresenceData, fmt: TimestampFormatter): string {
    var username := Username(d.discordUser);
    if !d.listeningToSpotify || !SpotifyPresent(d.spotify) then NotListeningText(username)
    else Trim(SpotifyDocument(username, d.spotify.value, fmt))
  }

  method RenderSpotify(d: PresenceData, fmt: TimestampFormatter) returns (text: string)
    ensures text == SpotifyText(d, fmt)
  {
    var username := d.discordUser.username.GetOr(Unknown);
    var listening := d.listeningToSpotify;
    if !listening || !SpotifyPresent(d.spotify) {
      return "🎵 " + username + " is not currently listening to Spotify";
    }
    var spotify := d.spotify.value;
    var output := "✅ Spotify Status for " + username + "\n\n";
    var block := FormatSpotifyData(d.spotify, fmt);
    output := output + block;

    var albumArt := spotify.albumArtUrl.GetOr("");
    if albumArt != "" {
      output := output + ("  Album Art: " + albumArt + "\n");
    }

    var trackId := spotify.trackId.GetOr("");
    if trackId != "" {
      output := output + ("  Track URL: " + TrackUrlBase + trackId + "\n");
    }
    text := Trim(output);
  }

  /** The "not listening" sentence is the answer exactly when the user is
      not listening or the record is missing or empty. */
  lemma SpotifyNotListeningIff(d: PresenceData, fmt: TimestampFormatter)
    ensures SpotifyText(d, fmt) == NotListeningText(Username(d.discordUser))
        <==> !d.listeningToSpotify || !SpotifyPresent(d.spotify)
    ensures SpotifyText(d, fmt) != []
    ensures SpotifyText(d, fmt)[0] == '✅' <==> d.listeningToSpotify && SpotifyPresent(d.spotify)
  {
    assert NotListeningText(Username(d.discordUser))[0] == '🎵';
    if d.listeningToSpotify && SpotifyPresent(d.spotify) {
      var doc := SpotifyDocument(Username(d.discordUser), d.spotify.value, fmt);
      assert doc == "✅" + doc[1..];
      TrimKeepsPrefix("✅", doc[1..]);
      assert SpotifyText(d, fmt)[0] == '✅';
      assert NotListeningText(Username(d.discordUser))[0] == '🎵';
    }
  }

  /** The record's fields are not looked at unless the user is listening. */
  lemma SpotifyIgnoresRecordUnlessListening(d: PresenceData, fmt: TimestampFormatter)
    requires !d.listeningToSpotify
    ensures SpotifyText(d, fmt) == SpotifyText(d.(spotify := None), fmt)
  {
  }

  /** With a track id, the text ends with the track's URL on the open
      Spotify site. */
  lemma SpotifyEndsWithTrackUrl(d: PresenceData, fmt: TimestampFormatter)
    requires d.listeningToSpotify && SpotifyPresent(d.spotify)
    requires Truthy(d.spotify.value.trackId)
    requires !IsSpace(d.spotify.value.trackId.value[|d.spotify.value.trackId.value| - 1])
    ensures var suffix := "Track URL: " + TrackUrlBase + d.spotify.value.trackId.value;
            |suffix| <= |SpotifyText(d, fmt)|
            && SpotifyText(d, fmt)[|SpotifyText(d, fmt)| - |suffix|..] == suffix
  {
    var sp := d.spotify.value;
    var trackId := sp.trackId.value;
    var opening := "✅ Spotify Status for " + Username(d.discordUser) + "\n\n" + SpotifyBlock(Some(sp), fmt);
    var art := if Truthy(sp.albumArtUrl) then opening + ("  Album Art: " + sp.albumArtUrl.value + "\n") else opening;
    var doc := art + ("  Track URL: " + TrackUrlBase + trackId + "\n");
    assert SpotifyDocument(Username(d.discordUser), sp, fmt) == doc;
    var suffix := "Track URL: " + TrackUrlBase + trackId;
    var whole := art + "  " + suffix;
    TrackLineSplit(art, trackId);
    assert doc == whole + "\n";
    assert art[0] == opening[0] == '✅';
    assert doc[0] == '✅';
    assert TrimLeft(doc) == doc;
    assert whole[|whole| - 1] == trackId[|trackId| - 1];
    TrimRightSpaceSuffix(whole, "\n");
    assert whole[|whole| - |suffix|..] == suffix;
  }

  lemma TrackLineSplit(art: string, trackId: string)
    ensures art + ("  Track URL: " + TrackUrlBase + trackId + "\n")
         == art + "  " + ("Track URL: " + TrackUrlBase + trackId) + "\n"
  {
  }

  // ---------------------------------------------------------------------------
  // get_user_kv

  function NoKvText(username: string): string {
    "📝 " + username + " has no custom KV data set"
  }

  function KvHeaderFor(username: string): string {
    "✅ KV Data for " + username + "\n\n"
  }

  function KvText(d: PresenceData): string {
    var username := Username(d.discordUser);
    if d.kv == [] then NoKvText(username) else Trim(KvHeaderFor(username) + KvBlock(d.kv))
  }

  method RenderKv(d: PresenceData) returns (text: string)
    ensures text == KvText(d)
  {
    var username := d.discordUser.username.GetOr(Unknown);
    var kv := d.kv;
    if kv == [] {
      return "📝 " + username + " has no custom KV data set";
    }
    var output := "✅ KV Data for " + username + "\n\n";
    var block := FormatKvData(kv);
    output := output + block;
    text := Trim(output);
  }

  /** The "no KV data" sentence is the answer exactly when there is none;
      otherwise the text is the header and the KV block with its trailing
      whitespace stripped. */
  lemma KvTextShape(d: PresenceData)
    ensures KvText(d) == NoKvText(Username(d.discordUser)) <==> d.kv == []
    ensures d.kv != [] ==> KvText(d) == KvHeaderFor(Username(d.discordUser)) + TrimRight(KvBlock(d.kv))
    ensures KvText(d) != [] && (KvText(d)[0] == '✅' <==> d.kv != [])
  {
    assert NoKvText(Username(d.discordUser))[0] == '📝';
    if d.kv != [] {
      var header := KvHeaderFor(Username(d.discordUser));
      var block := KvBlock(d.kv);
      assert (header + block)[0] == '✅';
      assert TrimLeft(header + block) == header + block;
      assert block[0] == '📝';
      TrimRightAppend(header, block);
      assert KvText(d)[0] == '✅';
      assert NoKvText(Username(d.discordUser))[0] == '📝';
    }
  }
}
