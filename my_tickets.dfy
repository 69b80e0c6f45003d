/**
 * components/MyTickets.tsx: lists a company's support tickets. A mount
 * effect fetches them once, the two lookup tables turn a pipeline stage into
 * a badge colour and a label, and the render picks one of four views.
 */
module MyTickets {
  import opened Js

  /** The properties of a CRM ticket the list uses; an absent priority is `None`. */
  datatype TicketProperties = TicketProperties(
    subject: string,
    content: string,
    stage: string,
    pipeline: string,
    priority: Option<string>,
    createdate: string,
    lastModified: string)

  datatype Ticket = Ticket(id: string, properties: TicketProperties)

  // ---------------------------------------------------------------------------
  // the stage lookup tables

  const Blue: string := "bg-blue-100 text-blue-800"
  const Yellow: string := "bg-yellow-100 text-yellow-800"
  const Green: string := "bg-green-100 text-green-800"
  const Gray: string := "bg-gray-100 text-gray-800"

  /** The colour table, keyed by stage id. */
  const StageColors: map<string, string> := map["1" := Blue, "2" := Yellow, "3" := Green, "4" := Gray]

  /** The label table, keyed by stage id. */
  const StageLabels: map<string, string> := map["1" := "New", "2" := "In Progress", "3" := "Resolved", "4" := "Closed"]

  /** `getStatusColor`: the table's entry when it is truthy, gray otherwise. */
  function StatusColor(stage: string): string
  {
    if stage in StageColors && StageColors[stage] != "" then StageColors[stage] else Gray
  }

  /** `getStatusLabel`: the table's entry when it is truthy, "Stage <id>" otherwise. */
  function StatusLabel(stage: string): string
  {
    if stage in StageLabels && StageLabels[stage] != "" then StageLabels[stage] else "Stage " + stage
  }

  /**
   * The colours: stages 1 to 3 each have their own, and every other stage,
   * '4' included, shows the gray one.
   */
  lemma StatusColorTable(stage: string)
    ensures stage == "1" ==> StatusColor(stage) == "bg-blue-100 text-blue-800"
    ensures stage == "2" ==> StatusColor(stage) == "bg-yellow-100 text-yellow-800"
    ensures stage == "3" ==> StatusColor(stage) == "bg-green-100 text-green-800"
    ensures StatusColor(stage) == "bg-gray-100 text-gray-800" <==> stage !in {"1", "2", "3"}
  {
    assert Blue[5] != Gray[5] && Yellow[5] != Gray[5] && Green[5] != Gray[5];
  }

  /** Two stages share a colour exactly when they are equal or both outside 1 to 3. */
  lemma StatusColorSame(a: string, b: string)
    ensures StatusColor(a) == StatusColor(b) <==> a == b || (a !in {"1", "2", "3"} && b !in {"1", "2", "3"})
  {
    StatusColorTable(a);
    StatusColorTable(b);
    assert Blue[5] != Yellow[5] && Blue[5] != Green[5] && Yellow[5] != Green[5];
  }

  /** The labels: the four named stages, and "Stage <id>" for any other. */
  lemma StatusLabelTable(stage: string)
    ensures stage == "1" ==> StatusLabel(stage) == "New"
    ensures stage == "2" ==> StatusLabel(stage) == "In Progress"
    ensures stage == "3" ==> StatusLabel(stage) == "Resolved"
    ensures stage == "4" ==> StatusLabel(stage) == "Closed"
    ensures stage !in {"1", "2", "3", "4"} ==> StatusLabel(stage) == "Stage " + stage
  {
  }

  /**
   * Reading a label back: the stage id a label stands for. No table entry
   * starts with "Stage ", so the two kinds of label cannot be confused.
   */
  function StageOfLabel(text: string): Option<string>
  {
    if text == "New" then Some("1")
    else if text == "In Progress" then Some("2")
    else if text == "Resolved" then Some("3")
    else if text == "Closed" then Some("4")
    else if StartsWith(text, "Stage ") then
      var stage := text[6..];
      if stage in StageLabels then None else Some(stage)
    else None
  }

  /** Every label reads back as its stage, so different stages never share a label. */
  lemma StageOfStatusLabel(stage: string)
    ensures StageOfLabel(StatusLabel(stage)) == Some(stage)
  {
    var text := StatusLabel(stage);
    if stage !in StageLabels {
      assert text == "Stage " + stage;
      assert text[0] == 'S';
      assert "New"[0] != 'S' && "In Progress"[0] != 'S' && "Resolved"[0] != 'S' && "Closed"[0] != 'S';
      assert text[..6] == "Stage ";
      assert text[6..] == stage;
    }
  }

  lemma StatusLabelInjective(a: string, b: string)
    ensures StatusLabel(a) == StatusLabel(b) ==> a == b
  {
    StageOfStatusLabel(a);
    StageOfStatusLabel(b);
  }

  // ---------------------------------------------------------------------------
  // fetching

  /** The JSON body of the tickets response; absent fields are `None`. */
  datatype ResponseData = ResponseData(tickets: Option<seq<Ticket>>, error: Option<string>)

  /**
   * How the fetch ended: a response with its `ok` flag and parsed body, or
   * an exception from the request or from parsing the body.
   */
  datatype FetchOutcome = Responded(ok: bool, data: ResponseData) | Threw

  /** The component's three pieces of state. */
  datatype TicketsState = TicketsState(tickets: seq<Ticket>, loading: bool, error: string)

  const FetchFailed: string := "Failed to fetch tickets"
  const LoadFailed: string := "Failed to load tickets"

  /** The address the tickets are requested from. */
  function TicketsUrl(companyId: string): string
  {
    "/api/get-tickets?companyId=" + companyId
  }

  /**
   * The state once a fetch has ended, from the state `st` it started in:
   * a success replaces the tickets and a failure the error; nothing clears
   * an earlier error; loading ends in every case.
   */
  function AfterFetch(st: TicketsState, outcome: FetchOutcome): (r: TicketsState)
    ensures !r.loading
    ensures outcome.Responded? && outcome.ok ==>
      r.tickets == (if outcome.data.tickets.Some? then outcome.data.tickets.value else []) && r.error == st.error
    ensures outcome.Responded? && !outcome.ok ==>
      r.tickets == st.tickets &&
      r.error == (if outcome.data.error.Some? && outcome.data.error.value != "" then outcome.data.error.value else "Failed to fetch tickets")
    ensures outcome.Threw? ==> r.tickets == st.tickets && r.error == "Failed to load tickets"
  {
    var st := st.(loading := true);
    var st :=
      match outcome
      case Responded(ok, data) =>
        if ok then st.(tickets := if data.tickets.Some? then data.tickets.value else [])
        else st.(error := OrElse(data.error, FetchFailed))
      case Threw => st.(error := LoadFailed);
    st.(loading := false)
  }

  // ---------------------------------------------------------------------------
  // the views

  /** One rendered ticket card; content and priority are shown only when truthy. */
  datatype Card = Card(
    key: string,
    subject: string,
    badgeColor: string,
    badgeLabel: string,
    content: Option<string>,
    created: string,
    priority: Option<string>)

  function CardOf(t: Ticket): (c: Card)
    ensures c.key == t.id && c.subject == t.properties.subject
    ensures c.badgeColor == StatusColor(t.properties.stage) && c.badgeLabel == StatusLabel(t.properties.stage)
    ensures c.content.Some? <==> t.properties.content != ""
    ensures c.content.Some? ==> c.content.value == t.properties.content
    ensures c.priority.Some? <==> Truthy(t.properties.priority)
    ensures c.priority == (if Truthy(t.properties.priority) then t.properties.priority else None)
  {
    var p := t.properties;
    Card(t.id, p.subject, StatusColor(p.stage), StatusLabel(p.stage),
      if p.content != "" then Some(p.content) else None,
      p.createdate,
      if Truthy(p.priority) then p.priority else None)
  }

  datatype View = Spinner | ErrorMessage(message: string) | NoTickets | TicketList(cards: seq<Card>)

  /** The render: loading first, then the error, then the empty list, then the cards in order. */
  function SelectView(st: TicketsState): (v: View)
    ensures v.Spinner? <==> st.loading
    ensures v.ErrorMessage? <==> !st.loading && st.error != ""
    ensures v.ErrorMessage? ==> v.message == st.error
    ensures v.NoTickets? <==> !st.loading && st.error == "" && |st.tickets| == 0
    ensures v.TicketList? ==> |v.cards| == |st.tickets| > 0
    ensures v.TicketList? ==> forall i :: 0 <= i < |v.cards| ==> v.cards[i] == CardOf(st.tickets[i])
  {
    if st.loading then Spinner
    else if st.error != "" then ErrorMessage(st.error)
    else if |st.tickets| == 0 then NoTickets
    else TicketList(seq(|st.tickets|, i requires 0 <= i < |st.tickets| => CardOf(st.tickets[i])))
  }

  /**
   * After any fetch the spinner is gone. A thrown request shows its message;
   * a failed response shows the server's error or the fallback; a success
   * shows the tickets, unless an earlier error is still set.
   */
  lemma ViewAfterFetch(st: TicketsState, outcome: FetchOutcome)
    ensures var v := SelectView(AfterFetch(st, outcome));
      && !v.Spinner?
      && (outcome.Threw? ==> v == ErrorMessage("Failed to load tickets"))
      && (outcome.Responded? && !outcome.ok ==> v.ErrorMessage?)
      && (outcome.Responded? && outcome.ok && st.error == "" ==>
            (v.NoTickets? <==> outcome.data.tickets.None? || |outcome.data.tickets.value| == 0))
      && (outcome.Responded? && outcome.ok && st.error != "" ==> v == ErrorMessage(st.error))
  {
    assert LoadFailed != "" && FetchFailed != "";
  }

  class MyTicketsComponent {
    var tickets: seq<Ticket>
    var loading: bool
    var error: string

    /** The initial state: no tickets, loading, no error. */
    constructor ()
      ensures tickets == [] && loading && error == ""
    {
      tickets := [];
      loading := true;
      error := "";
    }

    function State(): TicketsState
      reads this
    {
      TicketsState(tickets, loading, error)
    }

    /**
     * The mount effect for `companyId`, with `outcome` the way the request
     * ends. Returns the address requested, if any: nothing is requested, and
     * nothing changes, when the id is empty.
     */
    method FetchTickets(companyId: string, outcome: FetchOutcome) returns (requested: Option<string>)
      modifies this
      ensures requested.None? <==> companyId == ""
      ensures requested.Some? ==> requested.value == TicketsUrl(companyId)
      ensures companyId == "" ==> unchanged(this)
      ensures companyId != "" ==> State() == AfterFetch(old(State()), outcome)
    {
      if companyId == "" {
        return None;
      }
      loading := true;
      requested := Some(TicketsUrl(companyId));
      match outcome {
        case Responded(ok, data) =>
          if ok {
            tickets := if data.tickets.Some? then data.tickets.value else [];
          } else {
            error := OrElse(data.error, FetchFailed);
          }
        case Threw =>
          error := LoadFailed;
      }
      loading := false;
    }
  }

  /**
   * The initial state shows the spinner. `FetchTickets` leaves the state
   * unchanged for an empty company id, so then the spinner stays up.
   */
  lemma EmptyCompanyKeepsSpinner()
    ensures SelectView(TicketsState([], true, "")).Spinner?
  {
  }
}
