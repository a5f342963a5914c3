/** The decisions of services/emailMonitor.js that do not touch the mailbox:
    which customer an incoming report mail belongs to, which attachments are
    processed, and the on/off state of the monitor. The customer table is an
    in-memory sequence in table order; the mailbox, the file system, the
    database writes and the report pipeline behind each attachment are
    outside the model (the latter is a function parameter). */
module Intake {
  import opened Text

  datatype Customer = Customer(id: nat, name: string, email: Option<string>)

  /** A mail attachment; the filename may be missing. */
  datatype Attachment = Attachment(filename: Option<string>, content: string)

  /** The parts of a parsed mail the decisions read. `attachments` is None when
      the parser supplied no attachment list. */
  datatype Email = Email(fromAddress: string, subject: Option<string>, attachments: Option<seq<Attachment>>)

  // ---------------------------------------------------------------------------
  // Customer identification

  /** The first position in s whose element satisfies p. */
  function FirstIndex<T>(s: seq<T>, p: T -> bool): (r: Option<nat>)
    ensures r.Some? ==> r.value < |s| && p(s[r.value]) && forall j :: 0 <= j < r.value ==> !p(s[j])
    ensures r.None? ==> forall j :: 0 <= j < |s| ==> !p(s[j])
  {
    if s == [] then None
    else if p(s[0]) then Some(0)
    else match FirstIndex(s[1..], p)
      case None => None
      case Some(i) => Some(i + 1)
  }

  /** `LOWER(email) = fromEmail`: a customer without an email never matches. */
  predicate EmailMatches(c: Customer, fromEmail: string)
  {
    c.email.Some? && ToLower(c.email.value) == fromEmail
  }

  /** `subject.toLowerCase().includes(cust.name.toLowerCase())`. */
  predicate NameInSubject(c: Customer, subject: string)
  {
    Contains(ToLower(subject), ToLower(c.name))
  }

  /** `identifyCustomer(email)`: the first customer whose email equals the
      lower-cased sender address, else the first customer whose name occurs in
      the subject (a missing subject read as ''), else null. */
  function Identified(fromAddress: string, subject: Option<string>, customers: seq<Customer>): (r: Option<Customer>)
    ensures r.Some? ==> r.value in customers
    ensures (exists k :: 0 <= k < |customers| && EmailMatches(customers[k], ToLower(fromAddress))) ==>
      r.Some? && EmailMatches(r.value, ToLower(fromAddress))
    ensures (forall k :: 0 <= k < |customers| ==> !EmailMatches(customers[k], ToLower(fromAddress))) ==>
      var s := if subject.Some? then subject.value else "";
      (r.Some? ==> NameInSubject(r.value, s))
      && (r.None? <==> forall k :: 0 <= k < |customers| ==> !NameInSubject(customers[k], s))
  {
    var fromEmail := ToLower(fromAddress);
    match FirstIndex(customers, (c: Customer) => EmailMatches(c, fromEmail))
    case Some(k) => Some(customers[k])
    case None =>
      BySubject(if subject.Some? then subject.value else "", customers)
  }

  /** The subject stage: the first customer whose name occurs in `subject`. */
  function BySubject(subject: string, customers: seq<Customer>): Option<Customer>
  {
    match FirstIndex(customers, (c: Customer) => NameInSubject(c, subject))
    case Some(k) => Some(customers[k])
    case None => None
  }

  /** An email match wins over everything: the subject is not consulted, and
      of several customers with the sender's address the first one is taken. */
  lemma EmailMatchWins(fromAddress: string, subject1: Option<string>, subject2: Option<string>,
                       customers: seq<Customer>, k: nat)
    requires k < |customers| && EmailMatches(customers[k], ToLower(fromAddress))
    requires forall j :: 0 <= j < k ==> !EmailMatches(customers[j], ToLower(fromAddress))
    ensures Identified(fromAddress, subject1, customers) == Some(customers[k])
    ensures Identified(fromAddress, subject2, customers) == Some(customers[k])
  {
    var p := (c: Customer) => EmailMatches(c, ToLower(fromAddress));
    var i := FirstIndex(customers, p);
    assert p(customers[k]);
    assert i.Some? && i.value == k;
  }

  /** Without an email match, the first customer in table order whose name
      occurs in the subject is taken. */
  lemma SubjectMatchFirst(fromAddress: string, subject: Option<string>, customers: seq<Customer>, k: nat)
    requires forall j :: 0 <= j < |customers| ==> !EmailMatches(customers[j], ToLower(fromAddress))
    requires k < |customers|
    requires var s := if subject.Some? then subject.value else "";
      NameInSubject(customers[k], s) && forall j :: 0 <= j < k ==> !NameInSubject(customers[j], s)
    ensures Identified(fromAddress, subject, customers) == Some(customers[k])
  {
    var s := if subject.Some? then subject.value else "";
    var p := (c: Customer) => NameInSubject(c, s);
    var i := FirstIndex(customers, p);
    assert p(customers[k]);
    assert i.Some? && i.value == k;
  }

  /** `identifyCustomer`: the email lookup, then the loop over the customer
      table with an early return on the first name found in the subject. */
  method IdentifyCustomer(email: Email, customers: seq<Customer>) returns (r: Option<Customer>)
    ensures r == Identified(email.fromAddress, email.subject, customers)
  {
    var fromEmail := ToLower(email.fromAddress);
    var byEmail := FirstIndex(customers, (c: Customer) => EmailMatches(c, fromEmail));
    if byEmail.Some? {
      EmailMatchWins(email.fromAddress, email.subject, email.subject, customers, byEmail.value);
      return Some(customers[byEmail.value]);
    }
    var subject := if email.subject.Some? then email.subject.value else "";
    r := FindBySubject(subject, customers);
  }

  /** The loop of `identifyCustomer` over the customer table, returning on the
      first customer whose name occurs in the subject. */
  method FindBySubject(subject: string, customers: seq<Customer>) returns (r: Option<Customer>)
    ensures r == BySubject(subject, customers)
  {
    for i := 0 to |customers|
      invariant forall j :: 0 <= j < i ==> !NameInSubject(customers[j], subject)
    {
      if NameInSubject(customers[i], subject) {
        return Some(customers[i]);
      }
    }
    return None;
  }

  // ---------------------------------------------------------------------------
  // Attachments

  /** `att.filename && att.filename.toLowerCase().endsWith('.zip')`. The
      truthiness test only rules out a missing name: an empty name never ends
      in `.zip`. */
  function IsZip(a: Attachment): (r: bool)
    ensures r <==> a.filename.Some? && EndsWith(ToLower(a.filename.value), ".zip")
    ensures r ==> |a.filename.value| >= 4
  {
    a.filename.Some? && a.filename.value != "" && EndsWith(ToLower(a.filename.value), ".zip")
  }

  /** `attachments.filter(IsZip)`. */
  function ZipAttachments(atts: seq<Attachment>): seq<Attachment>
  {
    Filter(atts, IsZip)
  }

  /** What happened to one ZIP attachment: None when its processing finished,
      or the message of the error it threw (caught and logged). */
  datatype AttachmentResult = AttachmentResult(attachment: Attachment, error: Option<string>)

  /** Where `processEmail` stopped. */
  datatype EmailOutcome =
    | NoAttachments
    | NoZipAttachments
    | UnknownCustomer
    | Processed(customer: Customer, results: seq<AttachmentResult>)

  /** One pass of the attachment loop: the pipeline's error, if it threw one,
      is caught and recorded. */
  function Outcome(attachment: Attachment, customer: Customer,
                   processZipAttachment: (Attachment, Customer) -> Result<()>): (r: AttachmentResult)
    ensures r.attachment == attachment
    ensures r.error.Some? <==> processZipAttachment(attachment, customer).Err?
  {
    var res := processZipAttachment(attachment, customer);
    AttachmentResult(attachment, if res.Err? then Some(res.message) else None)
  }

  /** `for (const attachment of zipAttachments) try { ... } catch { ... }`:
      every attachment is processed, in order, whatever the earlier ones did. */
  method ProcessAttachments(zipAttachments: seq<Attachment>, customer: Customer,
                            processZipAttachment: (Attachment, Customer) -> Result<()>)
    returns (results: seq<AttachmentResult>)
    ensures |results| == |zipAttachments|
    ensures forall i :: 0 <= i < |zipAttachments| ==>
      results[i] == Outcome(zipAttachments[i], customer, processZipAttachment)
  {
    results := [];
    for i := 0 to |zipAttachments|
      invariant |results| == i
      invariant forall j :: 0 <= j < i ==> results[j] == Outcome(zipAttachments[j], customer, processZipAttachment)
    {
      var attachment := zipAttachments[i];
      var res := processZipAttachment(attachment, customer);
      if res.Err? {
        results := results + [AttachmentResult(attachment, Some(res.message))];
      } else {
        results := results + [AttachmentResult(attachment, None)];
      }
    }
  }

  /** `processEmail(email)`: return early without attachments, without a ZIP
      attachment, or without an identified customer; otherwise run the
      attachment pipeline on every ZIP attachment in order, catching its errors.
      `processZipAttachment` stands for that pipeline: Ok, or the error it throws. */
  method ProcessEmail(email: Email, customers: seq<Customer>,
                      processZipAttachment: (Attachment, Customer) -> Result<()>)
    returns (outcome: EmailOutcome)
    ensures email.attachments.None? || email.attachments.value == [] ==> outcome == NoAttachments
    ensures email.attachments.Some? && email.attachments.value != [] ==>
      var zips := ZipAttachments(email.attachments.value);
      var customer := Identified(email.fromAddress, email.subject, customers);
      && (zips == [] ==> outcome == NoZipAttachments)
      && (zips != [] && customer.None? ==> outcome == UnknownCustomer)
      && (zips != [] && customer.Some? ==>
            && outcome.Processed?
            && outcome.customer == customer.value
            && |outcome.results| == |zips|
            && forall i :: 0 <= i < |zips| ==>
                 outcome.results[i] == Outcome(zips[i], customer.value, processZipAttachment))
  {
    if email.attachments.None? || |email.attachments.value| == 0 {
      return NoAttachments;
    }
    var zipAttachments := ZipAttachments(email.attachments.value);
    if |zipAttachments| == 0 {
      return NoZipAttachments;
    }
    var customer := IdentifyCustomer(email, customers);
    if customer.None? {
      return UnknownCustomer;
    }
    var results := ProcessAttachments(zipAttachments, customer.value, processZipAttachment);
    outcome := Processed(customer.value, results);
  }

  // ---------------------------------------------------------------------------
  // Monitor state

  /** The monitoring settings row; `checkInterval` is the polling period in
      minutes and may be NULL. */
  datatype Settings = Settings(checkInterval: Option<nat>)

  /** `(settings.check_interval || 15) * 60 * 1000`: the polling period in ms. */
  function IntervalMs(s: Settings): (ms: nat)
    ensures ms >= 60000 && ms % 60000 == 0
    ensures s.checkInterval.Some? && s.checkInterval.value > 0 ==> ms / 60000 == s.checkInterval.value
    ensures s.checkInterval.None? || s.checkInterval.value == 0 ==> ms == 900000
  {
    var minutes := if s.checkInterval.Some? && s.checkInterval.value > 0 then s.checkInterval.value else 15;
    minutes * 60 * 1000
  }

  /** The module-level `isMonitoring` and `monitoringInterval` variables. A
      running interval timer is represented by its period. */
  class EmailMonitor {
    var isMonitoring: bool
    var monitoringInterval: Option<nat>

    /** A timer is installed exactly while monitoring is on. */
    predicate Valid()
      reads this
    {
      isMonitoring <==> monitoringInterval.Some?
    }

    constructor()
      ensures Valid() && !isMonitoring && monitoringInterval == None
    {
      isMonitoring := false;
      monitoringInterval := None;
    }

    /** `start()`: a no-op while monitoring; otherwise, given the enabled
        settings row (None when it is missing or the query fails), switch
        monitoring on with a timer of the configured period. */
    method Start(settings: Option<Settings>)
      requires Valid()
      modifies this
      ensures Valid()
      ensures old(isMonitoring) || settings.None? ==>
        isMonitoring == old(isMonitoring) && monitoringInterval == old(monitoringInterval)
      ensures !old(isMonitoring) && settings.Some? ==>
        isMonitoring && monitoringInterval == Some(IntervalMs(settings.value))
    {
      if isMonitoring {
        return;
      }
      if settings.None? {
        return;
      }
      isMonitoring := true;
      monitoringInterval := Some(IntervalMs(settings.value));
    }

    /** `stop()`: clears the timer if there is one and switches monitoring off. */
    method Stop()
      modifies this
      ensures Valid() && !isMonitoring && monitoringInterval == None
    {
      if monitoringInterval.Some? {
        monitoringInterval := None;
      }
      isMonitoring := false;
    }
  }
}
