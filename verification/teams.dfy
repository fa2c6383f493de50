/** Team codes and their display names, and the built-in table that gives an
    agent's team when the leaderboard data does not. */
module Teams {
  import opened Options
  import opened Text

  /** The display name of each known team code, keyed by the lower-case code. */
  const DisplayNames: map<string, string> := map[
    "n3c" := "N3C Financial",
    "afg" := "Ascent Financial",
    "blackoak" := "BlackOak Financial",
    "wkr" := "WKR Financial",
    "dialed" := "Dialed Financial",
    "adaptive" := "Adaptive Financial"
  ]

  /** `fullTeamName`: empty for an empty code; the display name of a known code,
      whatever its case; any other code unchanged. */
  function FullTeamName(code: string): (r: string)
    ensures r == "" <==> code == ""
    ensures code != "" && Lower(code) in DisplayNames ==> r == DisplayNames[Lower(code)]
    ensures Lower(code) !in DisplayNames ==> r == code
  {
    if code == "" then ""
    else
      var key := Lower(code);
      if key == "n3c" then "N3C Financial"
      else if key == "afg" then "Ascent Financial"
      else if key == "blackoak" then "BlackOak Financial"
      else if key == "wkr" then "WKR Financial"
      else if key == "dialed" then "Dialed Financial"
      else if key == "adaptive" then "Adaptive Financial"
      else code
  }

  /** Two spellings of a known code that differ only in case show the same name. */
  lemma FullTeamNameIgnoresCase(a: string, b: string)
    requires Lower(a) == Lower(b)
    requires Lower(a) in DisplayNames
    ensures FullTeamName(a) == FullTeamName(b)
  {
  }

  /** No two known codes share a display name, so the name identifies the team. */
  lemma DisplayNamesDistinct(a: string, b: string)
    requires a in DisplayNames && b in DisplayNames
    requires DisplayNames[a] == DisplayNames[b]
    ensures a == b
  {
  }

  /** One entry of the built-in agent table. */
  datatype KnownAgent = KnownAgent(name: string, team: string)

  /** Names are compared as `a.toLowerCase() === b.toLowerCase()`. */
  predicate SameName(a: string, b: string) {
    Lower(a) == Lower(b)
  }

  /** `i` is the first index whose entry has the given name. */
  predicate FirstMatch(known: seq<KnownAgent>, name: string, i: int) {
    && 0 <= i < |known|
    && SameName(known[i].name, name)
    && forall j :: 0 <= j < i ==> !SameName(known[j].name, name)
  }

  /** `knownAgents.find(...)`: the index of the first entry whose name matches, ignoring case. */
  function FindByName(known: seq<KnownAgent>, name: string): (r: Option<nat>)
    ensures r.Some? ==> r.value < |known| && SameName(known[r.value].name, name)
    ensures r.Some? ==> forall j :: 0 <= j < r.value ==> !SameName(known[j].name, name)
    ensures r.None? ==> forall j :: 0 <= j < |known| ==> !SameName(known[j].name, name)
  {
    if known == [] then None
    else if SameName(known[0].name, name) then Some(0)
    else
      match FindByName(known[1..], name)
      case None => None
      case Some(i) => Some(i + 1)
  }

  /** `lookupTeamByName`: the team of the first table entry whose name matches,
      ignoring case; empty for an empty name or when nothing matches. */
  function LookupTeamByName(known: seq<KnownAgent>, name: string): (r: string)
    ensures name == "" ==> r == ""
    ensures (forall j :: 0 <= j < |known| ==> !SameName(known[j].name, name)) ==> r == ""
    ensures name != "" ==> forall i :: FirstMatch(known, name, i) ==> r == known[i].team
  {
    if name == "" then ""
    else
      match FindByName(known, name)
      case None => ""
      case Some(i) => known[i].team
  }

  /** The team code a list row uses: the record's own team when it has one,
      otherwise the table's team for the record's name. */
  function RowTeamCode(known: seq<KnownAgent>, team: string, name: string): (r: string)
    ensures team != "" ==> r == team
    ensures team == "" ==> r == LookupTeamByName(known, name)
  {
    if team != "" then team else LookupTeamByName(known, name)
  }

  /** The table built into the page. */
  const KnownAgents: seq<KnownAgent> := [
    KnownAgent("Trevor Berends", "adaptive"),
    KnownAgent("Tommy Sheridan", "n3c"),
    KnownAgent("Aaron Masters", "dialed"),
    KnownAgent("Darien Meza", "n3c"),
    KnownAgent("Mason Pin-Bowder", "adaptive"),
    KnownAgent("Matt Walker", "wkr"),
    KnownAgent("Reese Trujillo", "afg"),
    KnownAgent("Sean Fisher", "afg"),
    KnownAgent("Tyler Harshbarger", "blackoak"),
    KnownAgent("Andrew S", "adaptive"),
    KnownAgent("Kaden Ramey", "dialed"),
    KnownAgent("Jack Warren", "wkr"),
    KnownAgent("Max Hanson", "wkr"),
    KnownAgent("Seamus Hayes", "adaptive"),
    KnownAgent("Tanner Forston", "dialed"),
    KnownAgent("Caleb Dotterer", "adaptive"),
    KnownAgent("Gino", "afg"),
    KnownAgent("Peewee", "wkr"),
    KnownAgent("Aiden Verdi", "afg"),
    KnownAgent("Darrell H", "dialed"),
    KnownAgent("Elijah Wilburn", "dialed"),
    KnownAgent("Johan Serna", "afg"),
    KnownAgent("Eric Eggatt", "afg"),
    KnownAgent("Caden Harshbarger", "blackoak"),
    KnownAgent("Brandon Richardson", "afg"),
    KnownAgent("Noah Doddridge", "n3c"),
    KnownAgent("Orison Nakvoss", "adaptive"),
    KnownAgent("Landen Krantz", "wkr"),
    KnownAgent("Deangelo Weekly", "dialed"),
    KnownAgent("Decarlos Frazier", "adaptive"),
    KnownAgent("Rylan P", "afg"),
    KnownAgent("Joshua Taylor", "afg"),
    KnownAgent("Daniel Zelenko", "afg"),
    KnownAgent("Ahjay Baez", "dialed"),
    KnownAgent("Alex Pappas", "dialed"),
    KnownAgent("Donovon P. Rogers", "adaptive"),
    KnownAgent("Dovi Clermont", "blackoak"),
    KnownAgent("Freedom", "blackoak"),
    KnownAgent("Giancarlo Palmeri", "adaptive"),
    KnownAgent("Jared Aigner", "afg"),
    KnownAgent("Jocelyn", "blackoak"),
    KnownAgent("Joel Rodriguez", "wkr"),
    KnownAgent("Josh Z", "afg"),
    KnownAgent("Kaelyn Jones", "n3c"),
    KnownAgent("Matthew Hedquist", "adaptive"),
    KnownAgent("Tayden Tindle", "adaptive"),
    KnownAgent("Irv Bevelle", "n3c")
  ]
}
