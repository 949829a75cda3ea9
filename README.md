# Lanyard presence tools, modelled in Dafny

The server exposes three tools over the Lanyard presence service for a
Discord user: `get_user_presence`, `get_user_spotify` and `get_user_kv`.
Each tool does the same four things:

1. It sanitizes the caller's user id, which must be 17 to 20 digits once
   surrounding whitespace is stripped.
2. It asks the service for `https://api.lanyard.rest/v1/users/<id>`.
3. It turns every failure into one line of text:
   - an invalid id;
   - a timeout;
   - a transport error;
   - a rejected HTTP status (404, 429 or any other);
   - a body that cannot be read;
   - a reply whose `success` flag is false.
4. Otherwise it renders the user's `data` as text, and the result is stripped
   of surrounding whitespace.

The model is split into modules:

- `UserId` covers the id check.
- `Payload` holds the decoded `data` object. A JSON key that may be absent
  is an `Option`, and each Python truthiness test is a predicate.
- `Format` covers the three block formatters: Spotify, activities and KV.
  Each formatter is a function that lists the block's lines, plus a method
  that appends them the way the server does, proved equal to the function.
- `Render` covers the three success texts. Each is given twice:
  - a function written in the server's own append order;
  - a method that appends the same way.
  Lemmas relate each text to its sections and state what each text
  guarantees.
- `Tools` covers the shared pipeline and the three tool methods. The HTTP
  exchange is a parameter: a `Fetcher` maps a URL to what asking for it
  produced.
- `Text` models the Python string operations the server relies on:
  - `strip()` and `isdigit()`;
  - `upper()`;
  - `str(int)`;
  - the `+=` accumulation.
- `Scenarios` pins a few concrete inputs to their exact text.

## Model

| member | source | states |
|---|---|---|
| UserId.Sanitize | lanyard_server.py:29-38 | The id is accepted exactly when the stripped input is 17-20 digits, and the stripped text is returned. The result is `Empty` exactly when the stripped input is empty. It is `NonDigit` exactly when the stripped input is non-empty with a non-digit. It is `BadLength` exactly when the stripped input is all digits with a length outside 17..20. |
| UserId.AcceptsPaddedId | lanyard_server.py:31-38 | Any well-formed id with whitespace on either side is accepted and returned without the whitespace. |
| UserId.AcceptedIsPaddedId | lanyard_server.py:31-38 | Conversely, an accepted value is a well-formed id that the input holds with only whitespace around it. |
| UserId.SanitizeIdempotent | lanyard_server.py:29-38 | Sanitizing an accepted id again accepts it unchanged. |
| Text.TrimIsStrip | lanyard_server.py:31 | `Trim` removes exactly a whitespace prefix and a whitespace suffix, and the result neither starts nor ends with whitespace. This is the meaning of `strip()`. |
| Text.StripIsTrim | lanyard_server.py:31 | Any such strip of a string equals `Trim`, so the strip is unique. |
| Text.Upper | lanyard_server.py:157 | `upper()` keeps the length, maps every character through the ASCII upper-case map, and leaves no lower-case ASCII letter. |
| Text.IntToStringRoundTrip | lanyard_server.py:193 | The decimal text of a status number reads back as that number, so distinct statuses print differently. |
| Format.FormatSpotifyData | lanyard_server.py:48-68 | Appending the header, the song, artist and album lines and the optional Started/Ends lines builds exactly the block whose lines `SpotifyLines` lists. An empty or absent record gives "Not listening to Spotify". |
| Format.SpotifyBlockLineCount | lanyard_server.py:57-66 | For a non-empty record whose song, artist and album contain no line break, and timestamp text that has no line break, the Spotify block has four lines plus one for each non-zero timestamp. |
| Format.TypeLabel | lanyard_server.py:80-88 | Types 0-5 get their label, and the fallback "Activity" is used exactly for every other type. |
| Format.ActivityEntries | lanyard_server.py:76-95 | There is one entry per activity, in order, and entry `i` is numbered `first + i`. |
| Format.FormatActivities | lanyard_server.py:70-97 | The loop's output is the concatenation of the activity entries numbered from 1, and "No activities" for an empty list. |
| Format.ActivityEntriesSplit | lanyard_server.py:76-95 | The entries of `a + b` are those of `a` followed by those of `b`, with the numbering continuing where `a` stopped. |
| Format.ActivitiesBlockFirst | lanyard_server.py:76-95 | For a non-empty list, the first activity comes first, numbered 1, and the rest follow numbered from 2. |
| Format.ActivityEntryLineCount | lanyard_server.py:90-95 | If no value contains a line break, an activity takes a blank line and a title line, plus one line each for non-empty details and state. |
| Format.KvLines | lanyard_server.py:105-106 | There is one line per KV entry, in the object's order. |
| Format.FormatKvData | lanyard_server.py:99-107 | The loop's output is the header followed by the entry lines in order, and "No KV data" for an empty object. |
| Format.KvBlockLineCount | lanyard_server.py:104-106 | If no key or value contains a line break, a non-empty KV block is the header line plus exactly one line per entry. |
| Format.KvBlockSplit | lanyard_server.py:105-106 | For a non-empty `a`, the block for `a + b` is the block for `a` followed by the lines of `b`, so the entries keep their order. |
| Render.DisplayName | lanyard_server.py:138-144 | The name is `@name` when the discriminator is "0" or absent, and `name#tag` otherwise. |
| Render.StatusEmoji | lanyard_server.py:150-157 | The four known statuses get their emoji. The white circle is used exactly for every other status. |
| Render.RenderPresence | lanyard_server.py:132-184 | Appending as the server does and stripping yields `PresenceText`. |
| Render.PresenceSections | lanyard_server.py:147-182 | Before stripping, the presence text is, in a fixed order: the header, the status line, one line per active device, a blank line, then the Spotify, activities and KV sections. Each section is empty exactly when its condition fails. For Spotify the condition is listening with a non-empty record. For activities it is a non-empty list. For KV it is non-empty KV data. |
| Render.DocumentOpening | lanyard_server.py:147-157 | The unstripped text starts with the header naming the user and id, followed by "Status: " and the status emoji. |
| Render.PresenceStartsWithHeader | lanyard_server.py:147-184 | The stripped text keeps that opening, whatever follows it. |
| Render.PresenceBare | lanyard_server.py:147-184 | With no device, no Spotify, no activities and no KV data, and a non-empty status that does not end in whitespace, the text is exactly the header and the status line, with the trailing blank lines removed. |
| Render.PresenceKvLast | lanyard_server.py:180-184 | The KV block, when present, comes last. Stripping removes only its trailing whitespace. Everything before it is the text without KV data. |
| Render.PresenceIgnoresSpotifyUnlessListening | lanyard_server.py:166-170 | When the user is not listening, the Spotify record has no effect on the text. |
| Render.RenderSpotify | lanyard_server.py:221-243 | Appending as the server does and stripping yields `SpotifyText`. |
| Render.SpotifyNotListeningIff | lanyard_server.py:225-232 | The "not currently listening" sentence is the reply exactly when the user is not listening, or has no Spotify record or an empty one. The reply starts with the check mark exactly in the opposite case. |
| Render.SpotifyIgnoresRecordUnlessListening | lanyard_server.py:225-229 | When the user is not listening, the record has no effect on the reply. |
| Render.SpotifyEndsWithTrackUrl | lanyard_server.py:239-243 | While the user is listening with a non-empty record, a track id whose last character is not whitespace makes the stripped text end with the open.spotify.com URL of that track. |
| Render.RenderKv | lanyard_server.py:280-291 | Appending as the server does and stripping yields `KvText`. |
| Render.KvTextShape | lanyard_server.py:283-291 | The "no custom KV data" sentence is the reply exactly when there is no KV data. Otherwise the reply is the header followed by the KV block with its trailing whitespace stripped. The reply starts with the check mark exactly when there is KV data. |
| Tools.Admit | lanyard_server.py:116-130 | Rendering goes ahead exactly in one case: the id is the stripped input and well formed, and the request for the user's URL returned a 2xx status with a decodable body whose `success` flag is true. In that case it goes ahead with that body's `data`. |
| Tools.GetUserPresence | lanyard_server.py:111-198 | The tool's reply is `Reply` for the presence tool. |
| Tools.GetUserSpotify | lanyard_server.py:200-257 | The tool's reply is `Reply` for the Spotify tool. |
| Tools.GetUserKv | lanyard_server.py:259-305 | The tool's reply is `Reply` for the KV tool. |
| Tools.InvalidIdNeverFetches | lanyard_server.py:116-119 | An invalid id gets "Invalid user ID" with its reason, whatever the network would have answered. |
| Tools.OnlyUserUrlConsulted | lanyard_server.py:121-127 | For a well-formed id, the reply depends on the network only through the answer for the sanitized user's URL. |
| Tools.StatusErrorIdentifiesStatus | lanyard_server.py:186-193 | For the same tool and id, different rejected statuses give different replies. |
| Tools.FetchFailureReplies | lanyard_server.py:186-198 | Each failure of a request for a well-formed id has its exact reply: timeout, transport error, 404, 429 or another status. |
| Tools.AnswerReplies | lanyard_server.py:127-198 | After a 2xx answer for a well-formed id, there are three replies. An unreadable body gives "❌ Error: <message>". A false `success` flag gives "❌ API returned unsuccessful response for user <id>". Otherwise the reply is the tool's rendering of `data`. |
| Tools.StatusErrorAcrossTools | lanyard_server.py:245-252 | Only the presence tool adds the "may not be using Lanyard" hint to its 404 reply. For every other status the three tools answer alike. |
| Tools.SuccessMarkIff | lanyard_server.py:228-231 | Every reply is non-empty. It starts with the check mark exactly when the tool found what it was asked for: a successful record for presence (line 147), listening with a non-empty Spotify record for Spotify (lines 228-231), and non-empty KV data for KV (lines 285-288). |
| Tools.DoneReplyMark | lanyard_server.py:116-130 | No failure reply starts with the check mark. |
| Scenarios.WideIdAccepted | lanyard_server.py:29-38 | A 20-digit id beyond the 64-bit range is accepted as text, with its padding stripped. |
| Scenarios.DisplayNames | lanyard_server.py:138-144 | The exact display names for discriminator "0", for a legacy tag, and for an absent discriminator. |
| Scenarios.TwoActivities | lanyard_server.py:76-95 | The exact activities block for a game and a track with a state line: "\n1. Playing Game A\n", then "\n2. Listening to Song B\n" and "   State: Chill\n". |
| Scenarios.TwoKvEntries | lanyard_server.py:104-106 | The exact KV block for two entries, in their order. |

## Truthiness

The code tests Python truthiness, not presence:

- A Started or Ends line needs a non-zero timestamp.
- A Details or State line needs a non-empty string.
- The Spotify section needs a non-empty object.
- The `success` flag is tested by truthiness.

A body that cannot be decoded has no case of its own. It falls into the
generic `except Exception` branch and reads "❌ Error: <message>".

## Left out

- HTTP, `async`, the 10-second timeout value, the MCP registration, logging and server start-up are left out. The network is the `Fetcher` parameter and a timeout is one of its outcomes.
- `format_timestamp` (lanyard_server.py:40-46) is the `TimestampFormatter` parameter. Its calendar arithmetic is outside the model, and its failure path already returns "Unknown".
- JSON decoding is left out. A value of the wrong JSON type, such as a `null` username, a numeric state or a string activity type, is not modelled. `Payload` gives every key its expected type or marks it absent.
- The message of an exception (`str(e)`) is a string parameter of the transport and decoding failures.
- Exceptions that formatting itself might raise on a malformed payload are left out. The typed payload rules them out.
- Duplicate keys in the `kv` object are not modelled. The object is an ordered list of pairs, and uniqueness is not enforced.
- `Text.Trim`, `Text.AllDigits` and `Text.Upper` use ASCII whitespace, ASCII digits and ASCII letters. Python's Unicode whitespace, Unicode digits and Unicode case mapping are left out.
- `Format.SpotifyBlockLineCount`, `Format.ActivityEntryLineCount` and `Format.KvBlockLineCount` count lines only when the values contain no line break.
