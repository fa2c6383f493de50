/** The text the page shows for the agent list: the amount and sales labels,
    the three podium slots and the rows below them. */
module Display {
  import opened Options
  import opened Text
  import opened Agents
  import opened Teams

  /** The 1x1 transparent GIF shown where an agent has no avatar. */
  const BlankAvatar: string := "data:image/gif;base64,R0lGODlhAQABAAD/ACwAAAAAAQABAAACADs="

  /** `fmt`: a dollar sign before the locale-formatted number; the number
      formatting itself is the `format` parameter. */
  function Money(format: int -> string, v: int): (r: string)
    ensures |r| >= 1 && r[0] == '$'
    ensures r[1..] == format(v)
  {
    "$" + format(v)
  }

  /** The amount label: blank unless the amount is positive, then the money text. */
  function AmountText(format: int -> string, amount: int): (r: string)
    ensures r == "" <==> amount <= 0
    ensures amount > 0 ==> r[0] == '$' && r[1..] == format(amount)
  {
    if amount > 0 then Money(format, amount) else ""
  }

  /** The sales label: `1 sale`, `<n> Sales` for more than one, blank otherwise. */
  function SalesText(sales: int): (r: string)
    ensures r == "" <==> sales <= 0
    ensures sales == 1 ==> r == "1 sale"
    ensures sales > 1 ==> r[0] != '0'
  {
    if sales == 1 then "1 sale"
    else if sales > 1 then NatToString(sales) + " Sales"
    else ""
  }

  const SalesSuffix: string := " Sales"

  /** The sale count a sales label shows; 0 for a blank label. */
  function SalesCount(t: string): nat {
    if t == "1 sale" then 1
    else if |t| > |SalesSuffix| && t[|t| - |SalesSuffix|..] == SalesSuffix
         && AllDigits(t[..|t| - |SalesSuffix|])
    then DigitsValue(t[..|t| - |SalesSuffix|])
    else 0
  }

  /** The sales label can be read back: it shows the count when positive and
      nothing otherwise. */
  lemma SalesTextRoundTrip(sales: int)
    ensures SalesCount(SalesText(sales)) == if sales > 0 then sales else 0
  {
    if sales > 1 {
      var d := NatToString(sales);
      var t := d + SalesSuffix;
      assert SalesText(sales) == t;
      assert |t| > 6;
      assert t[|t| - |SalesSuffix|..] == SalesSuffix;
      assert t[..|t| - |SalesSuffix|] == d;
      NatToStringRoundTrip(sales);
    }
  }

  /** Different positive counts get different labels. */
  lemma SalesTextInjective(m: int, n: int)
    requires m > 0 && n > 0
    requires SalesText(m) == SalesText(n)
    ensures m == n
  {
    SalesTextRoundTrip(m);
    SalesTextRoundTrip(n);
  }

  /** The image source for an avatar field: the blank image when it is empty. */
  function AvatarSrc(avatar: string): (r: string)
    ensures r != ""
    ensures avatar == "" ==> r == BlankAvatar
    ensures avatar != "" ==> r == avatar
  {
    if avatar == "" then BlankAvatar else avatar
  }

  /** What one podium slot shows. */
  datatype PodiumView = PodiumView(name: string, amount: string, sales: string, avatar: string)

  const EmptySlot: PodiumView := PodiumView("", "", "", BlankAvatar)

  /** `setPod`: a missing entry or one without a name leaves the slot blank;
      otherwise the slot shows the entry's name and labels. */
  function PodiumSlot(format: int -> string, ent: Option<Agent>): (v: PodiumView)
    ensures v.name == "" <==> ent.None? || ent.value.name == ""
    ensures v.name == "" ==> v == EmptySlot
    ensures v.name != "" ==> v.name == ent.value.name
    ensures v.name != "" ==> (v.amount == "" <==> ent.value.amount <= 0)
    ensures v.name != "" && ent.value.amount > 0 ==> v.amount == Money(format, ent.value.amount)
    ensures v.name != "" ==> v.sales == SalesText(ent.value.sales)
    ensures v.name != "" ==> SalesCount(v.sales) == if ent.value.sales > 0 then ent.value.sales else 0
    ensures v.name != "" ==> v.avatar == AvatarSrc(ent.value.avatar)
    ensures v.avatar != ""
  {
    match ent
    case None => EmptySlot
    case Some(a) =>
      if a.name == "" then EmptySlot
      else
        SalesTextRoundTrip(a.sales);
        PodiumView(a.name, AmountText(format, a.amount), SalesText(a.sales), AvatarSrc(a.avatar))
  }

  /** What one list row shows. */
  datatype RowView = RowView(
    rank: string,
    name: string,
    avatar: string,
    avatarAlt: string,
    team: string,
    amount: string,
    sales: string)

  /** `makeRow`: the texts of one list row. The team column shows the full name of
      the record's own team, or of the table's team for its name. */
  function MakeRow(format: int -> string, known: seq<KnownAgent>, a: Agent): (v: RowView)
    ensures v.name == a.name && v.avatarAlt == a.name
    ensures a.team != "" ==> v.team == FullTeamName(a.team)
    ensures a.team == "" ==> v.team == FullTeamName(LookupTeamByName(known, a.name))
    ensures v.amount == "" <==> a.amount <= 0
    ensures a.amount > 0 ==> v.amount == Money(format, a.amount)
    ensures v.sales == SalesText(a.sales)
    ensures SalesCount(v.sales) == if a.sales > 0 then a.sales else 0
    ensures v.rank == IntToString(a.rank)
    ensures IsIntText(v.rank) && IntValue(v.rank) == a.rank
    ensures v.avatar == AvatarSrc(a.avatar)
  {
    SalesTextRoundTrip(a.sales);
    IntToStringRoundTrip(a.rank);
    RowView(
      IntToString(a.rank),
      a.name,
      AvatarSrc(a.avatar),
      a.name,
      FullTeamName(RowTeamCode(known, a.team, a.name)),
      AmountText(format, a.amount),
      SalesText(a.sales))
  }

  /** Podium slots and list rows label amount, sales and avatar by the same rules. */
  lemma PodiumAndRowAgree(format: int -> string, known: seq<KnownAgent>, a: Agent)
    requires a.name != ""
    ensures PodiumSlot(format, Some(a)).amount == MakeRow(format, known, a).amount
    ensures PodiumSlot(format, Some(a)).sales == MakeRow(format, known, a).sales
    ensures PodiumSlot(format, Some(a)).avatar == MakeRow(format, known, a).avatar
  {
  }

  /** `Array.prototype.slice(from, to)` for non-negative bounds, which clamps them. */
  function Slice<T>(s: seq<T>, from: nat, to: nat): (r: seq<T>)
    ensures |r| <= |s|
    ensures from <= to <= |s| ==> r == s[from..to]
    ensures from <= |s| < to ==> r == s[from..]
    ensures to < from || |s| <= from ==> r == []
  {
    var hi := if to <= |s| then to else |s|;
    if from < hi then s[from..hi] else []
  }

  /** The podium's entries: `agents.slice(0, 3)`. */
  function Podium(agents: seq<Agent>): (top: seq<Agent>)
    ensures |top| == if |agents| < 3 then |agents| else 3
    ensures forall k :: 0 <= k < |top| ==> top[k] == agents[k]
  {
    Slice(agents, 0, 3)
  }

  /** The list's entries: everything after the podium, none when the list is empty. */
  function ListPart(agents: seq<Agent>): (rest: seq<Agent>)
    ensures |agents| <= 3 ==> rest == []
    ensures |agents| > 3 ==> |rest| == |agents| - 3
    ensures forall k :: 0 <= k < |rest| ==> rest[k] == agents[k + 3]
  {
    if |agents| > 0 then Slice(agents, 3, |agents|) else []
  }

  /** The podium and the list together are the whole agent list, in order. */
  lemma PodiumThenList(agents: seq<Agent>)
    ensures Podium(agents) + ListPart(agents) == agents
  {
  }

  /** The podium slot for place `k` (0, 1 or 2), i.e. `top[k]` or nothing. */
  function Slot(top: seq<Agent>, k: nat): Option<Agent> {
    if k < |top| then Some(top[k]) else None
  }

  /** Everything the page shows for an agent list. */
  datatype Screen = Screen(podium: seq<PodiumView>, rows: seq<RowView>)

  /** The rows for a run of records, in order. */
  function Rows(format: int -> string, known: seq<KnownAgent>, agents: seq<Agent>): (rows: seq<RowView>)
    ensures |rows| == |agents|
    ensures forall k :: 0 <= k < |agents| ==> rows[k] == MakeRow(format, known, agents[k])
  {
    if agents == [] then []
    else [MakeRow(format, known, agents[0])] + Rows(format, known, agents[1..])
  }

  /** `renderList`: list rows for the records after the third, then the three podium slots. */
  function Render(format: int -> string, known: seq<KnownAgent>, agents: seq<Agent>): (s: Screen)
    ensures |s.podium| == 3
    ensures forall k :: 0 <= k < 3 ==>
      s.podium[k] == PodiumSlot(format, if k < |agents| then Some(agents[k]) else None)
    ensures |s.rows| == if |agents| <= 3 then 0 else |agents| - 3
    ensures forall k :: 0 <= k < |s.rows| ==> s.rows[k] == MakeRow(format, known, agents[k + 3])
  {
    var top := Podium(agents);
    Screen(
      [PodiumSlot(format, Slot(top, 0)), PodiumSlot(format, Slot(top, 1)), PodiumSlot(format, Slot(top, 2))],
      Rows(format, known, ListPart(agents)))
  }

  /** An empty agent list shows three blank podium slots and no rows. */
  lemma RenderEmpty(format: int -> string, known: seq<KnownAgent>)
    ensures Render(format, known, []).podium == [EmptySlot, EmptySlot, EmptySlot]
    ensures Render(format, known, []).rows == []
  {
  }
}
