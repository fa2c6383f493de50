# Live sales leaderboard — decision logic

A Dafny model of what the leaderboard page script (`docs/js/site.js`) computes
before it touches the page: which reporting period the URL fragment selects and
which data file that period reads, how team codes become display names and how
an agent's team is found in the built-in table, how raw payload objects are
normalised into agent records, which records go to the three-place podium and
which to the ranked list, the amount and sales labels, and the small state
machine that decides whether a polled payload is applied (`lastTimestamp`).

Modules, one per concern of the script:

- `Options` — an optional value, for JavaScript's absent/`null` fields.
- `Text` — `toLowerCase`, first-occurrence `replace`, and integer-to-text.
- `Periods` — `getCurrentPeriod`, `buildUrlForPeriod`, the period subtitle.
- `Teams` — `fullTeamName`, `lookupTeamByName`, the known-agents table.
- `Agents` — raw payload entries and their normalisation in `pollOnce`.
- `Display` — amount/sales/avatar labels, `setPod`, `makeRow`, the podium/list split, `renderList`.
- `Poll` — the page state (`location.hash`, `lastTimestamp`, `window.agents`), `pollOnce`, `setActivePeriodUI`, `switchPeriod`, the `hashchange` listener.

Host behaviour is passed in rather than modelled: the locale number formatter
used by `fmt` is a parameter `format: int -> string`; `new Date().toISOString()`
is a parameter `now`; the outcome of `fetch`/`res.json()` is a `Response` value.

Behaviour of the script worth knowing, as the model states it:

- Normalisation copies `rank`, `amount` and `sales` as they come, without
  clamping negative values (`docs/js/site.js:189-192`, `Agents.Normalize`).
- A repeated payload is skipped only when it carries a non-empty timestamp; a
  payload without one is applied on every poll (`docs/js/site.js:184`, `Poll.PollOnce`).
- The timestamp is recorded before the records are built, so a payload with a
  `null` agent records its timestamp (or the current time) and keeps the old
  agents; a later poll of a payload with the same timestamp is rejected until a
  period button is clicked or the fragment changes (`docs/js/site.js:184-198`,
  `Poll.PollOnce`, `Poll.SwitchPeriod`, `Poll.HashChanged`).

## Model

| member | source | states |
|---|---|---|
| Text.Lower | docs/js/site.js:82 | lower-casing keeps the length and lower-cases each character in place |
| Text.LowerIdempotent | docs/js/site.js:82 | lower-casing an already lower-cased string changes nothing |
| Text.IndexOf | docs/js/site.js:82 | the index found holds the character and no earlier index does; the length when the character is absent |
| Text.RemoveFirst | docs/js/site.js:82 | replacing `#` by nothing drops exactly the first `#`, and leaves a string without `#` unchanged |
| Text.LowerRemoveFirstHash | docs/js/site.js:82 | dropping the first `#` and lower-casing can be done in either order |
| Text.NatToString | docs/js/site.js:128 | a count is written as at least one decimal digit with no leading zero (0 is written `0`) |
| Text.NatToStringRoundTrip | docs/js/site.js:128 | the digits written for a count read back as that count |
| Text.NatToStringInjective | docs/js/site.js:128 | different counts are written differently |
| Text.IntToString | docs/js/site.js:99 | a rank is written with a leading `-` exactly when it is negative, and without leading zeros (0 is written `0`) |
| Text.IntToStringRoundTrip | docs/js/site.js:99 | the rank text reads back as the rank |
| Periods.ParseName | docs/js/site.js:83 | a token names a period exactly when it is that period's token |
| Periods.FragmentKey | docs/js/site.js:82 | the key compared is lower-case; `daily` for an empty fragment; the lower-cased fragment after its leading `#`, or the whole lower-cased fragment when it has no `#` |
| Periods.CurrentPeriod | docs/js/site.js:81-85 | the result is always a period; an empty fragment gives daily; a recognised token gives its period; anything else gives daily |
| Periods.CurrentPeriodOfFragment | docs/js/site.js:81-85 | `#daily`, `#weekly`, `#monthly` in any mix of upper and lower case select that period |
| Periods.FragmentOfPeriod | docs/js/site.js:212-214 | the fragment written by a period switch selects that period |
| Periods.CurrentPeriodIgnoresCase | docs/js/site.js:82-83 | the selected period does not depend on the fragment's letter case |
| Periods.DataUrl | docs/js/site.js:89 | the path is `data/leaderboard-`, then the period's token, then `.json` |
| Periods.DataUrlRoundTrip | docs/js/site.js:89 | each data path `data/leaderboard-<period>.json` names its period back, so periods never share a file |
| Periods.BuildUrl | docs/js/site.js:87-90 | the requested path is the data path of the fragment's current period |
| Periods.Label | docs/js/site.js:206 | the label is the period's token with its first letter upper-cased and the rest unchanged |
| Periods.Subtitle | docs/js/site.js:206-208 | the subtitle is the period label followed by ` sales — updated automatically` |
| Teams.FullTeamName | docs/js/site.js:62-73 | empty exactly for an empty code; a known code in any case gets its fixed display name; any other code is returned unchanged |
| Teams.FullTeamNameIgnoresCase | docs/js/site.js:64 | two spellings of a known code that differ only in case show the same name |
| Teams.DisplayNamesDistinct | docs/js/site.js:65-70 | no two known codes share a display name |
| Teams.FindByName | docs/js/site.js:77 | finds the first table entry whose name matches ignoring case, or reports that none does |
| Teams.LookupTeamByName | docs/js/site.js:75-79 | empty for an empty name or no match; otherwise the team of the first case-insensitive match |
| Teams.RowTeamCode | docs/js/site.js:119 | a row's team code is the record's own team when non-empty, else the table lookup by name |
| Agents.NormalizeAgent | docs/js/site.js:188-195 | each field of a record is the source field when present, else rank = position + 1, empty name/team/avatar, zero amount/sales |
| Agents.NormalizeFrom | docs/js/site.js:188-195 | each record is built from the raw agent at the same position, numbered from the given start |
| Agents.Normalize | docs/js/site.js:188-195 | same length as the payload's agents; each field is the source value when present, else rank = position + 1, empty name/team/avatar, zero amount/sales |
| Display.Money | docs/js/site.js:60 | the money text is `$` followed by the formatted number |
| Display.AmountText | docs/js/site.js:124 | blank exactly when the amount is not positive; otherwise `$` and the formatted amount |
| Display.SalesText | docs/js/site.js:128 | blank exactly when sales are not positive; `1 sale` for one; no leading zero for more |
| Display.SalesTextRoundTrip | docs/js/site.js:128 | the sales label reads back as the count when positive and as nothing otherwise |
| Display.SalesTextInjective | docs/js/site.js:128 | different positive counts get different labels |
| Display.AvatarSrc | docs/js/site.js:105 | the record's avatar when it has one, the blank image when it is empty; never empty |
| Display.PodiumSlot | docs/js/site.js:142-160 | a slot is blank (name, amount, sales, blank avatar) exactly when its entry is missing or unnamed; otherwise it shows the entry's name, its avatar or the blank image, an amount that is blank exactly when not positive and money text otherwise, and the sales label (blank exactly when not positive, reading back as the count) |
| Display.MakeRow | docs/js/site.js:92-137 | a row shows the record's name and its rank written as an integer, reading back as the rank; its team column is the full name of the record's team, or of the table's team for the name when it has none; its avatar, amount and sales labels follow the same rules as the podium's |
| Display.PodiumAndRowAgree | docs/js/site.js:157-159 | podium slots and list rows use the same amount, sales and avatar rules |
| Display.Slice | docs/js/site.js:140 | `slice` clamps its bounds: an end past the length is cut to the length, and a start at or past the end gives nothing |
| Display.Podium | docs/js/site.js:140 | the podium holds the first three records (fewer when there are fewer), in order |
| Display.ListPart | docs/js/site.js:170-171 | the list holds the records from the fourth on, in order, and is empty when there are at most three |
| Display.PodiumThenList | docs/js/site.js:140-171 | podium followed by list is exactly the agent list |
| Display.Rows | docs/js/site.js:171 | one row per record, in order |
| Display.Render | docs/js/site.js:167-174 | three podium slots for places 1-3 (blank where there is no record) and one row per record after the third |
| Display.RenderEmpty | docs/js/site.js:148-154 | an empty agent list shows three blank slots and no rows |
| Poll.Objects | docs/js/site.js:188 | the raw agents of an array without `null` elements, one per element, in order |
| Poll.Accepts | docs/js/site.js:183-184 | a payload is accepted only with an agents array; with one it is always accepted when no timestamp is recorded; a non-empty timestamp equal to the recorded one is rejected; any other payload with an agents array (new, empty or absent timestamp) is accepted |
| Poll.InitialPage | docs/js/site.js:3-5 | the page starts with no agents, and its first payload with an agents array is applied whatever its timestamp |
| Poll.RequestUrl | docs/js/site.js:178 | a poll requests the data file of the fragment's current period |
| Poll.PollOnce | docs/js/site.js:176-201 | a failed request, a payload without an agents array, or a non-empty timestamp equal to the last one changes nothing; otherwise the timestamp (or the current time when absent) is recorded, and the agents are replaced by their normalised records — or kept when an element is `null` |
| Poll.PollOnceIdempotent | docs/js/site.js:184 | applying the same timestamped payload twice has the effect of applying it once |
| Poll.SetActivePeriod | docs/js/site.js:203-210 | the last timestamp is forgotten and nothing else changes |
| Poll.SwitchPeriod | docs/js/site.js:212-216 | after a switch the fragment is `#<period>` and selects that period; a payload with an agents array records its timestamp (or the current time) and replaces the agents, or keeps them when an element is `null`; a rejected response leaves the timestamp cleared and the agents unchanged |
| Poll.SwitchPeriodAccepts | docs/js/site.js:209-215 | after a switch the poll requests the new period's file and accepts any payload with an agents array, whatever its timestamp |
| Poll.HashChanged | docs/js/site.js:220 | a fragment change records the new fragment and keeps the agents, and the next payload with an agents array is applied whatever its timestamp |

## Left out

- `docs/js/particles.js`: a decorative canvas animation driven by random numbers, floating point and animation frames; it has no functional contract.
- DOM work (`createElement`, `innerHTML`, `classList`, `getElementById`, button active states): only the text values the script puts into elements are modelled.
- `fetch`, `res.ok`, `res.json()`, the swallowed exception (apart from a `null` agent element, which `Poll.PollOnce` models), `setInterval` and event listeners: a request's outcome is the `Response` parameter, and each handler is a pure step on the page state.
- `Number.prototype.toLocaleString` in `fmt`: locale-dependent, so it is the `format` parameter and only the `$` prefix is stated.
- `new Date().toISOString()`: the `now` parameter of `Poll.PollOnce`.
- `Number(...)` coercion of amounts and non-numeric JSON values (a string `sales`, a numeric `timestamp`, `NaN`): amounts, sales and ranks are integers, timestamps strings, and `name`, `team` and `avatar` strings (a non-string name or team makes `toLowerCase` throw while the list is rendered, leaving a partial list and a stale podium).
- Text.Lower: lower-cases ASCII letters only. `toLowerCase` also maps non-ASCII letters, some to ASCII (U+212A KELVIN SIGN becomes `k`), so a payload name or team code spelt with such letters can match a known agent or team code in the script but not in the model.
- Poll.SwitchPeriod: takes one of the three periods, while the click handlers (`docs/js/site.js:218-219`) pass a button's `data-period` text unchecked to `location.hash` and to the subtitle.
- Text.NatToString: does not model JavaScript's exponent notation for numbers of 1e21 and above.
- Display.AmountText: takes the normalised amount, which is never `null`, so the source's `!= null` test has no case to model.
- `encodeURIComponent` in `buildUrlForPeriod`: its argument is always one of three lower-case words, which it leaves unchanged, so it is the identity here.
- The order of a `switchPeriod` poll and the `hashchange` listener it triggers (both reset the timestamp) and overlapping polls: the model applies handlers one at a time.
- The contents of the built-in known-agents table are included (`Teams.KnownAgents`) but no lemma evaluates lookups in it; lookups are proved for any table.
