/** Concrete inputs and the exact text the server produces for them. */
module Scenarios {
  import opened Wrappers
  import opened Text
  import opened UserId
  import opened Payload
  import opened Format
  import opened Render

  /** A 20-digit id beyond the unsigned 64-bit range is accepted as text,
      with the surrounding whitespace removed. */
  lemma WideIdAccepted()
    ensures Sanitize(" 18446744073709551616\n") == Success("18446744073709551616")
  {
    assert " 18446744073709551616\n" == " " + "18446744073709551616" + "\n";
    AcceptsPaddedId(" ", "18446744073709551616", "\n");
  }

  /** The legacy tag "0" means a new-style `@name`; any other tag is kept. */
  lemma DisplayNames()
    ensures DisplayName(DiscordUser(Some("alice"), None, Some("0"))) == "@alice"
    ensures DisplayName(DiscordUser(Some("alice"), None, Some("1234"))) == "alice#1234"
    ensures DisplayName(DiscordUser(Some("alice"), None, None)) == "@alice"
  {
  }

  /** Two KV entries, one line each, in their order. */
  lemma TwoKvEntries()
    ensures KvBlock([KvPair("a", "1"), KvPair("b", "2")]) == KvHeader + "  a: 1\n" + "  b: 2\n"
  {
    var lines := KvLines([KvPair("a", "1"), KvPair("b", "2")]);
    assert lines == [lines[0]] + [lines[1]];
    ConcatSnoc([lines[0]], lines[1]);
    ConcatSnoc([], lines[0]);
    assert [] + [lines[0]] == [lines[0]];
  }

  /** Two activities: a game, then a track with a state line; each entry
      opens with a blank line and its number. */
  lemma TwoActivities()
    ensures ActivitiesBlock([Activity(Some("Game A"), Some(0), None, None),
                             Activity(Some("Song B"), Some(2), None, Some("Chill"))])
         == "\n1. Playing Game A\n" + "\n2. Listening to Song B\n" + "   State: Chill\n"
  {
    var game := Activity(Some("Game A"), Some(0), None, None);
    var song := Activity(Some("Song B"), Some(2), None, Some("Chill"));
    BlockOfTwo(game, song);
    GameEntry(game);
    SongEntry(song);
  }

  lemma BlockOfTwo(first: Activity, second: Activity)
    ensures ActivitiesBlock([first, second]) == ActivityEntry(1, first) + ActivityEntry(2, second)
  {
    assert [first, second] == [first] + [second];
    ActivityEntriesSplit([first], [second], 1);
    SingleEntry(first, 1);
    SingleEntry(second, 2);
  }

  lemma SingleEntry(a: Activity, ordinal: nat)
    ensures Concat(ActivityEntries([a], ordinal)) == ActivityEntry(ordinal, a)
  {
    assert ActivityEntries([a], ordinal) == [] + [ActivityEntry(ordinal, a)];
    ConcatSnoc([], ActivityEntry(ordinal, a));
  }

  lemma GameEntry(game: Activity)
    requires game == Activity(Some("Game A"), Some(0), None, None)
    ensures ActivityEntry(1, game) == "\n1. Playing Game A\n"
  {
    assert NatToString(1) == "1";
  }

  lemma SongEntry(song: Activity)
    requires song == Activity(Some("Song B"), Some(2), None, Some("Chill"))
    ensures ActivityEntry(2, song) == "\n2. Listening to Song B\n" + "   State: Chill\n"
  {
    SongTitle(song);
    assert DetailsLine(song) == "";
    assert StateLine(song) == "   State: Chill\n";
  }

  lemma SongTitle(song: Activity)
    requires song == Activity(Some("Song B"), Some(2), None, Some("Chill"))
    ensures ActivityTitle(2, song) == "\n2. Listening to Song B\n"
  {
    assert NatToString(2) == "2";
    assert TypeLabel(2) == "Listening to";
  }
}
