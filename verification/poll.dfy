/** The page's polling state: which payloads `pollOnce` accepts, what it keeps
    from them, and how a period switch resets the staleness check. */
module Poll {
  import opened Options
  import opened Agents
  import opened Periods

  /** A parsed JSON object; `agents` is `None` when that field is not an array.
      An element of the array is `None` when it is `null` or `undefined`; any
      other element is read field by field (a number or string element has no
      fields, so every field is absent). */
  datatype Payload = Payload(timestamp: Option<string>, agents: Option<seq<Option<RawAgent>>>)

  /** No element of the array is `null`: `a.rank` of a `null` element throws. */
  predicate AllObjects(entries: seq<Option<RawAgent>>) {
    forall i :: 0 <= i < |entries| ==> entries[i].Some?
  }

  /** The raw agents of an array without `null` elements. */
  function Objects(entries: seq<Option<RawAgent>>): (r: seq<RawAgent>)
    requires AllObjects(entries)
    ensures |r| == |entries|
    ensures forall i :: 0 <= i < |entries| ==> entries[i] == Some(r[i])
  {
    seq(|entries|, i requires 0 <= i < |entries| => entries[i].value)
  }

  /** The outcome of one request: `Failed` covers a network error, a non-OK
      status, a body that is not JSON, and a `null` or otherwise falsy body. */
  datatype Response = Failed | Received(payload: Payload)

  /** The page state: the URL fragment, `lastTimestamp` and the agent list. */
  datatype Page = Page(hash: string, lastTimestamp: Option<string>, agents: seq<Agent>)

  /** A JavaScript string is truthy when it is present and not empty. */
  predicate Truthy(t: Option<string>) {
    t.Some? && t.value != ""
  }

  /** The checks `pollOnce` makes before touching the state. */
  predicate Accepts(page: Page, response: Response)
    ensures Accepts(page, response) ==> response.Received? && response.payload.agents.Some?
    ensures response.Received? && response.payload.agents.Some? && page.lastTimestamp.None?
            ==> Accepts(page, response)
    ensures (response.Received? && Truthy(response.payload.timestamp)
             && response.payload.timestamp == page.lastTimestamp) ==> !Accepts(page, response)
    ensures (response.Received? && response.payload.agents.Some?
             && (!Truthy(response.payload.timestamp) || response.payload.timestamp != page.lastTimestamp))
            ==> Accepts(page, response)
  {
    && response.Received?
    && response.payload.agents.Some?
    && !(Truthy(response.payload.timestamp) && response.payload.timestamp == page.lastTimestamp)
  }

  /** The state when the script starts: no agents, and the first payload with an
      agents array is applied whatever its timestamp. */
  function InitialPage(hash: string): (p: Page)
    ensures p.agents == [] && p.hash == hash
    ensures forall response: Response :: response.Received? && response.payload.agents.Some? ==> Accepts(p, response)
  {
    Page(hash, None, [])
  }

  /** The path `pollOnce` requests in a given state. */
  function RequestUrl(page: Page): (url: string)
    ensures PeriodOfUrl(url) == Some(CurrentPeriod(page.hash))
  {
    BuildUrl(page.hash)
  }

  /** `pollOnce` after the response has arrived. A rejected response leaves the
      state as it was; an accepted one records its timestamp (or the `now`
      time when it has none) and replaces the agent list with its records.
      The timestamp is recorded before the records are built, so when an
      element is `null` the mapping throws, the exception is swallowed, and only
      the timestamp changes. */
  function PollOnce(page: Page, response: Response, now: string): (next: Page)
    ensures !Accepts(page, response) ==> next == page
    ensures response.Failed? ==> next == page
    ensures response.Received? && response.payload.agents.None? ==> next == page
    ensures (response.Received? && Truthy(response.payload.timestamp)
             && response.payload.timestamp == page.lastTimestamp) ==> next == page
    ensures Accepts(page, response) ==>
      && next.hash == page.hash
      && next.lastTimestamp.Some?
      && (Truthy(response.payload.timestamp) ==> next.lastTimestamp == response.payload.timestamp)
      && (!Truthy(response.payload.timestamp) ==> next.lastTimestamp == Some(now))
      && (AllObjects(response.payload.agents.value) ==>
            next.agents == Normalize(Objects(response.payload.agents.value)))
      && (!AllObjects(response.payload.agents.value) ==> next.agents == page.agents)
  {
    match response
    case Failed => page
    case Received(json) =>
      if json.agents.None? then page
      else if Truthy(json.timestamp) && json.timestamp == page.lastTimestamp then page
      else
        var stamp := if Truthy(json.timestamp) then json.timestamp.value else now;
        var entries := json.agents.value;
        if AllObjects(entries) then Page(page.hash, Some(stamp), Normalize(Objects(entries)))
        else Page(page.hash, Some(stamp), page.agents)
  }

  /** Polling again with the same timestamped payload changes nothing. */
  lemma PollOnceIdempotent(page: Page, response: Response, now: string, now': string)
    requires response.Received? && Truthy(response.payload.timestamp)
    ensures PollOnce(PollOnce(page, response, now), response, now')
            == PollOnce(page, response, now)
  {
  }

  /** `setActivePeriodUI`: forget the last timestamp; nothing else in the state changes. */
  function SetActivePeriod(page: Page): (next: Page)
    ensures next.lastTimestamp.None?
    ensures next.hash == page.hash && next.agents == page.agents
  {
    page.(lastTimestamp := None)
  }

  /** `switchPeriod`: write the period into the fragment, reset the staleness
      check, and poll the new period's data file. */
  function SwitchPeriod(page: Page, p: Period, response: Response, now: string): (next: Page)
    ensures next.hash == "#" + Name(p)
    ensures CurrentPeriod(next.hash) == p
    ensures !Accepts(SetActivePeriod(page.(hash := "#" + Name(p))), response) ==>
      next.lastTimestamp.None? && next.agents == page.agents
    ensures response.Received? && response.payload.agents.Some? ==>
      next.lastTimestamp == Some(if Truthy(response.payload.timestamp) then response.payload.timestamp.value else now)
    ensures (response.Received? && response.payload.agents.Some?
             && !AllObjects(response.payload.agents.value)) ==> next.agents == page.agents
    ensures response.Received? && response.payload.agents.Some?
            && AllObjects(response.payload.agents.value) ==>
      next.agents == Normalize(Objects(response.payload.agents.value))
  {
    var switched := SetActivePeriod(page.(hash := "#" + Name(p)));
    FragmentOfPeriod(p);
    var next := PollOnce(switched, response, now);
    assert next.hash == switched.hash;
    next
  }

  /** After a switch the poll asks for the new period's file, and any payload
      with an agent array is accepted whatever its timestamp. */
  lemma SwitchPeriodAccepts(page: Page, p: Period, response: Response)
    requires response.Received? && response.payload.agents.Some?
    ensures var switched := SetActivePeriod(page.(hash := "#" + Name(p)));
      && RequestUrl(switched) == DataUrl(p)
      && Accepts(switched, response)
  {
    var switched := SetActivePeriod(page.(hash := "#" + Name(p)));
    FragmentOfPeriod(p);
  }

  /** The `hashchange` listener: reset the staleness check for the fragment's period. */
  function HashChanged(page: Page, hash: string): (next: Page)
    ensures next.hash == hash && next.agents == page.agents
    ensures forall response: Response :: response.Received? && response.payload.agents.Some? ==> Accepts(next, response)
  {
    SetActivePeriod(page.(hash := hash))
  }
}
