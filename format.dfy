/** The three block formatters shared by the tools: `format_spotify_data`,
    `format_activities` and `format_kv_data`. Each is given twice: a function
    that says which lines the block consists of, and a method that builds the
    text by appending, as the server does, proved equal to it. */
module Format {
  import opened Wrappers
  import opened Text
  import opened Payload

  /** `format_timestamp`: epoch milliseconds to display text. Its calendar
      arithmetic is not part of this model; it never fails (a failed
      conversion already reads "Unknown"), so it is any total function. */
  type TimestampFormatter = int -> string

  const Unknown := "Unknown"

  // ---------------------------------------------------------------------------
  // format_spotify_data

  const NotListening := "Not listening to Spotify"
  const SpotifyHeader := "🎵 Spotify Activity:\n"

  /** The lines of a non-empty Spotify block: header, song, artist, album
      (each "Unknown" when absent), then a Started line when the start
      timestamp is non-zero and an Ends line when the end timestamp is. */
  function SpotifyLines(sp: SpotifyRecord, fmt: TimestampFormatter): seq<string> {
    var ts := sp.timestamps.GetOr(Timestamps(None, None));
    [ SpotifyHeader,
      "  Song: " + sp.song.GetOr(Unknown) + "\n",
      "  Artist: " + sp.artist.GetOr(Unknown) + "\n",
      "  Album: " + sp.album.GetOr(Unknown) + "\n" ]
    + (if NonZero(ts.start) then ["  Started: " + fmt(ts.start.value) + "\n"] else [])
    + (if NonZero(ts.end) then ["  Ends: " + fmt(ts.end.value) + "\n"] else [])
  }

  function SpotifyBlock(sp: Option<SpotifyRecord>, fmt: TimestampFormatter): string {
    if !SpotifyPresent(sp) then NotListening else Concat(SpotifyLines(sp.value, fmt))
  }

  method FormatSpotifyData(sp: Option<SpotifyRecord>, fmt: TimestampFormatter) returns (output: string)
    ensures output == SpotifyBlock(sp, fmt)
  {
    if !SpotifyPresent(sp) {
      return NotListening;
    }
    var spotify := sp.value;
    var song := spotify.song.GetOr(Unknown);
    var artist := spotify.artist.GetOr(Unknown);
    var album := spotify.album.GetOr(Unknown);

    ghost var lines: seq<string> := [];
    output := "";
    var line := SpotifyHeader;
    ConcatSnoc(lines, line);
    output, lines := output + line, lines + [line];
    line := "  Song: " + song + "\n";
    ConcatSnoc(lines, line);
    output, lines := output + line, lines + [line];
    line := "  Artist: " + artist + "\n";
    ConcatSnoc(lines, line);
    output, lines := output + line, lines + [line];
    line := "  Album: " + album + "\n";
    ConcatSnoc(lines, line);
    output, lines := output + line, lines + [line];

    var timestamps := spotify.timestamps.GetOr(Timestamps(None, None));
    if NonZero(timestamps.start) {
      line := "  Started: " + fmt(timestamps.start.value) + "\n";
      ConcatSnoc(lines, line);
      output, lines := output + line, lines + [line];
    }
    if NonZero(timestamps.end) {
      line := "  Ends: " + fmt(timestamps.end.value) + "\n";
      ConcatSnoc(lines, line);
      output, lines := output + line, lines + [line];
    }
    assert lines == SpotifyLines(spotify, fmt);
  }

  /** With no line breaks inside the values, a Spotify block has four lines,
      plus one for each non-zero timestamp. */
  lemma SpotifyBlockLineCount(sp: SpotifyRecord, fmt: TimestampFormatter)
    requires !sp.IsEmpty()
    requires '\n' !in sp.song.GetOr(Unknown) && '\n' !in sp.artist.GetOr(Unknown) && '\n' !in sp.album.GetOr(Unknown)
    requires forall t :: '\n' !in fmt(t)
    ensures CountChar('\n', SpotifyBlock(Some(sp), fmt))
         == 4 + (if NonZero(sp.timestamps.GetOr(Timestamps(None, None)).start) then 1 else 0)
              + (if NonZero(sp.timestamps.GetOr(Timestamps(None, None)).end) then 1 else 0)
  {
    var ts := sp.timestamps.GetOr(Timestamps(None, None));
    var song, artist, album := sp.song.GetOr(Unknown), sp.artist.GetOr(Unknown), sp.album.GetOr(Unknown);
    var fixed := [ SpotifyHeader, "  Song: " + song + "\n", "  Artist: " + artist + "\n", "  Album: " + album + "\n" ];
    var started := if NonZero(ts.start) then ["  Started: " + fmt(ts.start.value) + "\n"] else [];
    var ends := if NonZero(ts.end) then ["  Ends: " + fmt(ts.end.value) + "\n"] else [];
    assert SpotifyLines(sp, fmt) == fixed + (started + ends);
    FixedSpotifyLineCount(song, artist, album);
    if NonZero(ts.start) {
      FieldLineCount("  Started: ", fmt(ts.start.value));
    }
    if NonZero(ts.end) {
      FieldLineCount("  Ends: ", fmt(ts.end.value));
    }
    OptionalLinesCount(fixed, started, ends);
  }

  /** The header and the song, artist and album lines make four lines. */
  lemma FixedSpotifyLineCount(song: string, artist: string, album: string)
    requires '\n' !in song && '\n' !in artist && '\n' !in album
    ensures CountChar('\n', Concat([ SpotifyHeader, "  Song: " + song + "\n", "  Artist: " + artist + "\n", "  Album: " + album + "\n" ])) == 4
  {
    assert SpotifyHeader == "🎵 Spotify Activity:" + "\n";
    LineCount("🎵 Spotify Activity:");
    FieldLineCount("  Song: ", song);
    FieldLineCount("  Artist: ", artist);
    FieldLineCount("  Album: ", album);
    ConcatLineCount([ SpotifyHeader, "  Song: " + song + "\n", "  Artist: " + artist + "\n", "  Album: " + album + "\n" ]);
  }

  /** Lines followed by at most one more line, twice. */
  lemma OptionalLinesCount(lines: seq<string>, first: seq<string>, second: seq<string>)
    requires |first| <= 1 && |second| <= 1
    requires first != [] ==> CountChar('\n', first[0]) == 1
    requires second != [] ==> CountChar('\n', second[0]) == 1
    ensures CountChar('\n', Concat(lines + (first + second)))
         == CountChar('\n', Concat(lines)) + |first| + |second|
  {
    ConcatAppend(lines, first + second);
    CountCharAppend('\n', Concat(lines), Concat(first + second));
    var extra := first + second;
    forall i | 0 <= i < |extra|
      ensures CountChar('\n', extra[i]) == 1
    {
      if i < |first| {
        assert extra[i] == first[0];
      } else {
        assert extra[i] == second[0];
      }
    }
    ConcatLineCount(extra);
  }

  /** A labelled line holds one line break when its value holds none. */
  lemma FieldLineCount(prefix: string, value: string)
    requires '\n' !in prefix && '\n' !in value
    ensures CountChar('\n', prefix + value + "\n") == 1
  {
    assert '\n' !in prefix + value;
    LineCount(prefix + value);
  }

  // ---------------------------------------------------------------------------
  // format_activities

  const NoActivities := "No activities"

  /** The activity-type labels; any other type reads "Activity". */
  const TypeNames: map<int, string> := map[
    0 := "Playing",
    1 := "Streaming",
    2 := "Listening to",
    3 := "Watching",
    4 := "Custom Status",
    5 := "Competing in"]

  function TypeLabel(activityType: int): (typeStr: string)
    ensures activityType in TypeNames ==> typeStr == TypeNames[activityType]
    ensures typeStr == "Activity" <==> !(0 <= activityType <= 5)
  {
    if activityType in TypeNames then TypeNames[activityType] else "Activity"
  }

  /** The text for the activity numbered `ordinal`: a blank line, then
      "{ordinal}. {label} {name}" (type 0 and name "Unknown" when absent),
      then a Details line and a State line when those are non-empty. */
  function ActivityEntry(ordinal: nat, a: Activity): string {
    ActivityTitle(ordinal, a) + DetailsLine(a) + StateLine(a)
  }

  function ActivityTitle(ordinal: nat, a: Activity): string {
    "\n" + NatToString(ordinal) + ". " + TypeLabel(a.activityType.GetOr(0)) + " " + a.name.GetOr(Unknown) + "\n"
  }

  function DetailsLine(a: Activity): string {
    if Truthy(a.details) then "   Details: " + a.details.value + "\n" else ""
  }

  function StateLine(a: Activity): string {
    if Truthy(a.state) then "   State: " + a.state.value + "\n" else ""
  }

  /** The entries of `acts`, numbered consecutively from `first`. */
  function ActivityEntries(acts: seq<Activity>, first: nat): (entries: seq<string>)
    ensures |entries| == |acts|
    ensures forall i :: 0 <= i < |acts| ==> entries[i] == ActivityEntry(first + i, acts[i])
  {
    seq(|acts|, i requires 0 <= i < |acts| => ActivityEntry(first + i, acts[i]))
  }

  function ActivitiesBlock(acts: seq<Activity>): string {
    if acts == [] then NoActivities else Concat(ActivityEntries(acts, 1))
  }

  method FormatActivities(acts: seq<Activity>) returns (output: string)
    ensures output == ActivitiesBlock(acts)
  {
    if acts == [] {
      return NoActivities;
    }
    output := "";
    ghost var entries := ActivityEntries(acts, 1);
    for i := 0 to |acts|
      invariant output == Concat(entries[..i])
    {
      ghost var before := output;
      var activity := acts[i];
      var name := activity.name.GetOr(Unknown);
      var typeStr := TypeLabel(activity.activityType.GetOr(0));
      var title := "\n" + NatToString(i + 1) + ". " + typeStr + " " + name + "\n";
      output := output + title;
      if Truthy(activity.details) {
        output := output + ("   Details: " + activity.details.value + "\n");
      }
      if Truthy(activity.state) {
        output := output + ("   State: " + activity.state.value + "\n");
      }
      AppendOptionalLines(before, title, Truthy(activity.details), DetailsLine(activity),
                          Truthy(activity.state), StateLine(activity));
      assert title == ActivityTitle(i + 1, activity);
      assert entries[i] == title + DetailsLine(activity) + StateLine(activity);
      ConcatStep(entries, i, before, output);
    }
    assert entries[..|acts|] == entries;
  }

  /** Appending a title and then two optional lines appends the entry they
      make up. */
  lemma AppendOptionalLines(before: string, title: string, c1: bool, x1: string, c2: bool, x2: string)
    requires !c1 ==> x1 == ""
    requires !c2 ==> x2 == ""
    ensures var withTitle := before + title;
            var withFirst := if c1 then withTitle + x1 else withTitle;
            (if c2 then withFirst + x2 else withFirst) == before + (title + x1 + x2)
  {
  }

  /** Numbering runs on across a split of the list: the entries of `a + b`
      are those of `a` followed by those of `b`, numbered from where `a`
      stopped. */
  lemma ActivityEntriesSplit(a: seq<Activity>, b: seq<Activity>, first: nat)
    ensures Concat(ActivityEntries(a + b, first))
         == Concat(ActivityEntries(a, first)) + Concat(ActivityEntries(b, first + |a|))
  {
    assert ActivityEntries(a + b, first) == ActivityEntries(a, first) + ActivityEntries(b, first + |a|);
    ConcatAppend(ActivityEntries(a, first), ActivityEntries(b, first + |a|));
  }

  /** The first activity comes first, numbered 1, and the rest follow
      numbered from 2. */
  lemma ActivitiesBlockFirst(acts: seq<Activity>)
    requires acts != []
    ensures ActivitiesBlock(acts) == ActivityEntry(1, acts[0]) + Concat(ActivityEntries(acts[1..], 2))
  {
    var entries := ActivityEntries(acts, 1);
    ConcatFirst(entries);
    assert entries[1..] == ActivityEntries(acts[1..], 2);
  }

  /** With no line breaks inside the values, an activity takes a blank line
      and a title line, plus one line each for non-empty details and state. */
  lemma ActivityEntryLineCount(ordinal: nat, a: Activity)
    requires '\n' !in a.name.GetOr(Unknown)
    requires Truthy(a.details) ==> '\n' !in a.details.value
    requires Truthy(a.state) ==> '\n' !in a.state.value
    ensures CountChar('\n', ActivityEntry(ordinal, a))
         == 2 + (if Truthy(a.details) then 1 else 0) + (if Truthy(a.state) then 1 else 0)
  {
    TitleLineCount(ordinal, a);
    OptionalLineCount("   Details: ", a.details);
    OptionalLineCount("   State: ", a.state);
    CountCharAppend('\n', ActivityTitle(ordinal, a), DetailsLine(a));
    CountCharAppend('\n', ActivityTitle(ordinal, a) + DetailsLine(a), StateLine(a));
  }

  lemma TitleLineCount(ordinal: nat, a: Activity)
    requires '\n' !in a.name.GetOr(Unknown)
    ensures CountChar('\n', ActivityTitle(ordinal, a)) == 2
  {
    var digits := NatToString(ordinal);
    var typeStr := TypeLabel(a.activityType.GetOr(0));
    var text := digits + ". " + typeStr + " " + a.name.GetOr(Unknown);
    assert '\n' !in digits by {
      assert forall j :: 0 <= j < |digits| ==> IsDigit(digits[j]);
    }
    assert '\n' !in typeStr by {
      TypeLabelHasNoBreak(a.activityType.GetOr(0));
    }
    assert ActivityTitle(ordinal, a) == "\n" + (text + "\n");
    LineCount(text);
    CountCharAppend('\n', "\n", text + "\n");
  }

  lemma TypeLabelHasNoBreak(activityType: int)
    ensures '\n' !in TypeLabel(activityType)
  {
  }

  /** A line `prefix + value` shown only when the value is non-empty. */
  lemma OptionalLineCount(prefix: string, value: Option<string>)
    requires '\n' !in prefix
    requires Truthy(value) ==> '\n' !in value.value
    ensures CountChar('\n', if Truthy(value) then prefix + value.value + "\n" else "") == (if Truthy(value) then 1 else 0)
  {
    if Truthy(value) {
      LineCount(prefix + value.value);
    }
  }

  // ---------------------------------------------------------------------------
  // format_kv_data

  const NoKvData := "No KV data"
  const KvHeader := "📝 Custom KV Data:\n"

  function KvLine(p: KvPair): string {
    "  " + p.key + ": " + p.value + "\n"
  }

  /** One line per entry, in the object's order. */
  function KvLines(kv: seq<KvPair>): (lines: seq<string>)
    ensures |lines| == |kv|
    ensures forall i :: 0 <= i < |kv| ==> lines[i] == KvLine(kv[i])
  {
    seq(|kv|, i requires 0 <= i < |kv| => KvLine(kv[i]))
  }

  function KvBlock(kv: seq<KvPair>): string {
    if kv == [] then NoKvData else KvHeader + Concat(KvLines(kv))
  }

  method FormatKvData(kv: seq<KvPair>) returns (output: string)
    ensures output == KvBlock(kv)
  {
    if kv == [] {
      return NoKvData;
    }
    output := KvHeader;
    ghost var lines := "";
    for i := 0 to |kv|
      invariant lines == Concat(KvLines(kv)[..i])
      invariant output == KvHeader + lines
    {
      var line := "  " + kv[i].key + ": " + kv[i].value + "\n";
      ConcatStep(KvLines(kv), i, lines, lines + line);
      output, lines := output + line, lines + line;
    }
    assert KvLines(kv)[..|kv|] == KvLines(kv);
  }

  /** With no line breaks in keys or values, a non-empty KV block is the
      header line plus exactly one line per entry. */
  lemma KvBlockLineCount(kv: seq<KvPair>)
    requires kv != []
    requires forall i :: 0 <= i < |kv| ==> '\n' !in kv[i].key && '\n' !in kv[i].value
    ensures CountChar('\n', KvBlock(kv)) == |kv| + 1
  {
    var lines := KvLines(kv);
    forall i | 0 <= i < |lines|
      ensures CountChar('\n', lines[i]) == 1
    {
      KvLineCount(kv[i]);
    }
    ConcatLineCount(lines);
    assert CountChar('\n', KvHeader) == 1 by {
      assert KvHeader == "📝 Custom KV Data:" + "\n";
      LineCount("📝 Custom KV Data:");
    }
    CountCharAppend('\n', KvHeader, Concat(lines));
  }

  lemma KvLineCount(p: KvPair)
    requires '\n' !in p.key && '\n' !in p.value
    ensures CountChar('\n', KvLine(p)) == 1
  {
    LineCount("  " + p.key + ": " + p.value);
  }

  /** Entries are listed in order: the block for `a + b` is the block for
      `a` followed by the lines for `b`. */
  lemma KvBlockSplit(a: seq<KvPair>, b: seq<KvPair>)
    requires a != []
    ensures KvBlock(a + b) == KvBlock(a) + Concat(KvLines(b))
  {
    assert KvLines(a + b) == KvLines(a) + KvLines(b);
    ConcatAppend(KvLines(a), KvLines(b));
  }
}
