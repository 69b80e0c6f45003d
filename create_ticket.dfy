/**
 * app/api/create-ticket/route.ts: the POST handler that files a support
 * ticket in the CRM, creates (or finds) the customer's contact and links
 * the two. The CRM client is code this model cannot see: each of its calls
 * is an outcome given as input, and the handler returns the calls it made
 * in order together with its response.
 */
module CreateTicketRoute {
  import opened Js

  /** The JSON request body. */
  datatype TicketRequest = TicketRequest(customerName: string, phone: string, email: string, issue: string)

  /** A thrown error: its `code` and `message`, each possibly absent. */
  datatype JsError = JsError(code: Option<int>, message: Option<string>)

  /** How an awaited call ended: with a value, or by throwing. */
  datatype Outcome<T> = Ok(value: T) | Threw(error: JsError)

  datatype TicketProperties = TicketProperties(subject: string, content: string, stage: string, pipeline: string)

  datatype ContactProperties = ContactProperties(firstname: string, lastname: string, email: string, phone: string)

  /** A ticket-to-contact association of the given category and type id. */
  datatype Association = Association(fromObject: string, fromId: string, toObject: string, toId: string,
                                     category: string, typeId: int)

  /** The CRM calls the handler can make. */
  datatype CrmCall =
    | CreateTicket(ticket: TicketProperties)
    | CreateContact(contact: ContactProperties)
    | SearchContactsByEmail(email: string)
    | CreateAssociation(association: Association)

  /**
   * How each CRM call would end if made: ticket creation yields the ticket
   * id, contact creation the contact id, the search the ids of the hits in
   * order, the association nothing.
   */
  datatype Crm = Crm(ticket: Outcome<string>, contact: Outcome<string>, search: Outcome<seq<string>>,
                     association: Outcome<()>)

  datatype ResponseBody = Created(success: bool, ticketId: string) | Failed(error: string)

  datatype Response = Response(status: int, body: ResponseBody)

  const ConflictCode: int := 409
  const SubjectPrefix: string := "Support Request from "
  const FallbackError: string := "Failed to create ticket"

  /** The ticket filed for `customerName`: new stage '1' of pipeline '0'. */
  function TicketPropertiesOf(customerName: string, issue: string): (p: TicketProperties)
    ensures StartsWith(p.subject, "Support Request from ")
    ensures p.subject[|SubjectPrefix|..] == customerName
    ensures p.content == issue && p.stage == "1" && p.pipeline == "0"
  {
    var subject := SubjectPrefix + customerName;
    assert subject[..|SubjectPrefix|] == SubjectPrefix;
    TicketProperties(subject, issue, "1", "0")
  }

  /** Different customers get different subjects. */
  lemma SubjectIdentifiesCustomer(a: string, b: string, issue: string)
    ensures TicketPropertiesOf(a, issue).subject == TicketPropertiesOf(b, issue).subject ==> a == b
  {
  }

  /**
   * The contact for a request: the first name is the text before the first
   * space and the last name everything after it (`''` when there is none).
   */
  function ContactPropertiesOf(req: TicketRequest): (c: ContactProperties)
    ensures c.email == req.email && c.phone == req.phone
    ensures ' ' !in c.firstname
    ensures ' ' in req.customerName ==> c.firstname + " " + c.lastname == req.customerName
    ensures ' ' !in req.customerName ==> c.firstname == req.customerName && c.lastname == ""
  {
    var name := req.customerName;
    FirstAndRest(name, ' ');
    var rest := RestPieces(name, ' ');
    // an empty rest falls back to the empty string, which changes nothing
    ContactProperties(FirstPiece(name, ' '), if rest != "" then rest else "", req.email, req.phone)
  }

  /** A name of several words: the first word, and the remaining words as they were written. */
  lemma ContactNameSplit(req: TicketRequest, first: string, rest: string)
    requires ' ' !in first && req.customerName == first + " " + rest
    ensures ContactPropertiesOf(req).firstname == first
    ensures ContactPropertiesOf(req).lastname == rest
  {
    FirstAndRestOf(first, ' ', rest);
  }

  /** The 500 response for a thrown error: its message, or the fallback text. */
  function ServerError(e: JsError): (r: Response)
    ensures r.status == 500 && r.body.Failed?
    ensures r.body.error == if Truthy(e.message) then e.message.value else "Failed to create ticket"
  {
    Response(500, Failed(OrElse(e.message, FallbackError)))
  }

  /**
   * Only a conflict from contact creation (the contact already exists) leads
   * to the search by email.
   */
  predicate SearchesAfter(contact: Outcome<string>)
  {
    contact.Threw? && contact.error.code == Some(ConflictCode)
  }

  /**
   * The contact id the handler settles on, or the error that escapes while
   * finding it: the created contact's id; after a conflict, the first search
   * hit if any; after any other error, none. Only a failed search escapes.
   */
  function ResolveContact(contact: Outcome<string>, search: Outcome<seq<string>>): (r: Outcome<Option<string>>)
  {
    match contact
    case Ok(id) => Ok(Some(id))
    case Threw(e) =>
      if e.code == Some(ConflictCode) then
        match search
        case Ok(hits) => Ok(if |hits| > 0 then Some(hits[0]) else None)
        case Threw(se) => Threw(se)
      else Ok(None)
  }

  lemma ResolveContactRule(contact: Outcome<string>, search: Outcome<seq<string>>)
    ensures contact.Ok? ==> ResolveContact(contact, search) == Ok(Some(contact.value))
    ensures SearchesAfter(contact) && search.Ok? ==>
      ResolveContact(contact, search) == Ok(if |search.value| > 0 then Some(search.value[0]) else None)
    ensures SearchesAfter(contact) && search.Threw? ==> ResolveContact(contact, search) == Threw(search.error)
    ensures contact.Threw? && !SearchesAfter(contact) ==> ResolveContact(contact, search) == Ok(None)
    ensures ResolveContact(contact, search).Threw? <==> SearchesAfter(contact) && search.Threw?
  {
  }

  /** The association the handler makes: ticket to contact, HubSpot-defined type 16. */
  function AssociationOf(ticketId: string, contactId: string): (a: Association)
    ensures a.fromObject == "tickets" && a.toObject == "contacts"
    ensures a.fromId == ticketId && a.toId == contactId
    ensures a.category == "HUBSPOT_DEFINED" && a.typeId == 16
  {
    Association("tickets", ticketId, "contacts", contactId, "HUBSPOT_DEFINED", 16)
  }

  /** The calls of the contact step: the creation, then the search only after a conflict. */
  function ContactCalls(req: TicketRequest, contact: Outcome<string>): (calls: seq<CrmCall>)
    ensures |calls| >= 1 && calls[0] == CreateContact(ContactPropertiesOf(req))
    ensures |calls| == 2 <==> SearchesAfter(contact)
    ensures |calls| <= 2
    ensures |calls| == 2 ==> calls[1] == SearchContactsByEmail(req.email)
  {
    [CreateContact(ContactPropertiesOf(req))] + (if SearchesAfter(contact) then [SearchContactsByEmail(req.email)] else [])
  }

  /** Whether the step settled on a truthy contact id, so that the association is made. */
  predicate Associates(contactId: Outcome<Option<string>>)
  {
    contactId.Ok? && Truthy(contactId.value)
  }

  /** The association call, made only for a truthy contact id. */
  function AssociationCalls(ticketId: string, contactId: Outcome<Option<string>>): (calls: seq<CrmCall>)
    ensures |calls| <= 1
    ensures |calls| == 1 <==> contactId.Ok? && contactId.value.Some? && contactId.value.value != ""
    ensures |calls| == 1 ==> calls[0] == CreateAssociation(AssociationOf(ticketId, contactId.value.value))
  {
    if Associates(contactId) then [CreateAssociation(AssociationOf(ticketId, contactId.value.value))] else []
  }

  /** The outcome once the ticket exists: a failure that escaped, or success with the ticket id. */
  function ResponseAfterTicket(ticketId: string, contactId: Outcome<Option<string>>, association: Outcome<()>): (r: Response)
    ensures r.status == 200 || r.status == 500
    ensures r.status == 500 <==> contactId.Threw? || (Associates(contactId) && association.Threw?)
    ensures r.status == 200 ==> r.body == Created(true, ticketId)
    ensures contactId.Threw? ==> r == ServerError(contactId.error)
    ensures contactId.Ok? && r.status == 500 ==> r == ServerError(association.error)
  {
    if contactId.Threw? then ServerError(contactId.error)
    else if Associates(contactId) && association.Threw? then ServerError(association.error)
    else Response(200, Created(true, ticketId))
  }

  /**
   * The contact step: create the contact; on a conflict, search for it by
   * email and take the first hit. Any other creation error is swallowed;
   * a failed search escapes as `Threw`.
   */
  method FindContact(req: TicketRequest, crm: Crm) returns (contactId: Outcome<Option<string>>, calls: seq<CrmCall>)
    ensures contactId == ResolveContact(crm.contact, crm.search)
    ensures calls == ContactCalls(req, crm.contact)
  {
    calls := [CreateContact(ContactPropertiesOf(req))];
    contactId := Ok(None);
    match crm.contact {
      case Ok(id) =>
        contactId := Ok(Some(id));
      case Threw(e) =>
        if e.code == Some(ConflictCode) {
          calls := calls + [SearchContactsByEmail(req.email)];
          match crm.search {
            case Threw(se) =>
              contactId := Threw(se);
            case Ok(hits) =>
              contactId := Ok(if |hits| > 0 then Some(hits[0]) else None);
          }
        }
    }
  }

  /**
   * Everything after the ticket `ticketId` exists: the contact step, then
   * the association when a truthy contact id was found.
   */
  method LinkContact(req: TicketRequest, ticketId: string, crm: Crm) returns (resp: Response, calls: seq<CrmCall>)
    ensures var contactId := ResolveContact(crm.contact, crm.search);
      && calls == ContactCalls(req, crm.contact) + AssociationCalls(ticketId, contactId)
      && resp == ResponseAfterTicket(ticketId, contactId, crm.association)
  {
    var contact;
    contact, calls := FindContact(req, crm);
    if contact.Threw? {
      resp := ServerError(contact.error);
      assert calls == calls + [];
      return;
    }
    var contactId := contact.value;
    if Truthy(contactId) {
      calls := calls + [CreateAssociation(AssociationOf(ticketId, contactId.value))];
      if crm.association.Threw? {
        resp := ServerError(crm.association.error);
        return;
      }
    } else {
      assert calls == calls + [];
    }
    resp := Response(200, Created(true, ticketId));
  }

  /** No call in a list creates a ticket. */
  predicate NoTicketCreation(calls: seq<CrmCall>)
  {
    forall i :: 0 <= i < |calls| ==> !calls[i].CreateTicket?
  }

  lemma LinkContactCreatesNoTicket(req: TicketRequest, ticketId: string, contact: Outcome<string>,
                                   contactId: Outcome<Option<string>>)
    ensures NoTicketCreation(ContactCalls(req, contact) + AssociationCalls(ticketId, contactId))
  {
  }

  /**
   * POST /api/create-ticket. `body` is how parsing the request ended and
   * `crm` how each CRM call would end.
   */
  method Post(body: Outcome<TicketRequest>, crm: Crm) returns (resp: Response, calls: seq<CrmCall>)
    ensures resp.status == 200 || resp.status == 500
    ensures resp.status == 200 ==> body.Ok? && crm.ticket.Ok? && resp.body == Created(true, crm.ticket.value)
    // ticket creation comes first, and comes once
    ensures body.Threw? <==> calls == []
    ensures body.Ok? ==>
      && calls[0] == CreateTicket(TicketPropertiesOf(body.value.customerName, body.value.issue))
      && NoTicketCreation(calls[1..])
    ensures body.Threw? ==> resp == ServerError(body.error)
    ensures body.Ok? && crm.ticket.Threw? ==> resp == ServerError(crm.ticket.error) && |calls| == 1
    ensures body.Ok? && crm.ticket.Ok? ==>
      var req := body.value;
      var contactId := ResolveContact(crm.contact, crm.search);
      && calls == [CreateTicket(TicketPropertiesOf(req.customerName, req.issue))]
                  + ContactCalls(req, crm.contact) + AssociationCalls(crm.ticket.value, contactId)
      && resp == ResponseAfterTicket(crm.ticket.value, contactId, crm.association)
  {
    calls := [];
    if body.Threw? {
      resp := ServerError(body.error);
      return;
    }
    var req := body.value;
    var ticketProperties := TicketPropertiesOf(req.customerName, req.issue);
    calls := calls + [CreateTicket(ticketProperties)];
    if crm.ticket.Threw? {
      resp := ServerError(crm.ticket.error);
      return;
    }
    var ticketId := crm.ticket.value;
    var linkCalls;
    resp, linkCalls := LinkContact(req, ticketId, crm);
    LinkContactCreatesNoTicket(req, ticketId, crm.contact, ResolveContact(crm.contact, crm.search));
    calls := calls + linkCalls;
    assert calls[1..] == linkCalls;
  }

  /**
   * The association is made exactly when a truthy contact id was found: the
   * created contact's, or the first search hit's after a conflict. Any
   * other contact error is swallowed and the request still succeeds when
   * the ticket was created.
   */
  lemma AssociationRule(req: TicketRequest, ticketId: string, crm: Crm)
    ensures var contactId := ResolveContact(crm.contact, crm.search);
      && (|AssociationCalls(ticketId, contactId)| == 1 <==>
            (crm.contact.Ok? && crm.contact.value != "")
            || (SearchesAfter(crm.contact) && crm.search.Ok? && |crm.search.value| > 0 && crm.search.value[0] != ""))
      && (crm.contact.Threw? && !SearchesAfter(crm.contact) ==>
            AssociationCalls(ticketId, contactId) == [] && ResponseAfterTicket(ticketId, contactId, crm.association) == Response(200, Created(true, ticketId)))
      && (AssociationCalls(ticketId, contactId) != [] ==>
            AssociationCalls(ticketId, contactId) == [CreateAssociation(AssociationOf(ticketId, contactId.value.value))])
  {
  }
}
