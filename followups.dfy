/** The follow-up reminders armed after a quote: one record per phone naming
    the lead and which of the two reminders went out, and the check each
    reminder makes against the lead store before it is sent. */
module FollowUps {
  import opened Options
  import opened Leads

  /** A pending follow-up. The two timers themselves are not modelled: each
      firing is an explicit call. */
  datatype FollowUp = FollowUp(leadId: Value, sent1: bool, sent2: bool)

  /** The reminder sent 30 minutes after the quote, and the one sent 24 hours after. */
  datatype Reminder = First | Second

  /** What a firing reminder did. */
  datatype Outcome =
    | NoRecord      // the phone has no follow-up any more
    | AlreadySent   // this reminder went out before
    | Engaged       // the customer is in a dialogue again
    | LeadClosed    // the lead is gone or no longer "Novo": the record is dropped
    | SendFailed    // sending threw; nothing is recorded
    | Delivered     // sent, and flagged as sent

  function Sent(f: FollowUp, which: Reminder): bool {
    match which
    case First => f.sent1
    case Second => f.sent2
  }

  /** `cur.sent1 = true` or `cur.sent2 = true`. */
  function MarkSent(f: FollowUp, which: Reminder): (g: FollowUp)
    ensures Sent(g, which) && g.leadId == f.leadId
    ensures forall other :: other != which ==> Sent(g, other) == Sent(f, other)
  {
    match which
    case First => f.(sent1 := true)
    case Second => f.(sent2 := true)
  }

  /** `(lead.status || "Novo") === "Novo"`. */
  predicate StillNew(lead: Lead) {
    OrDefault(Get(lead, "status"), Str("Novo")) == Str("Novo")
  }

  /** `canFollowUp()`: the first lead with the identifier exists and is still new. */
  predicate CanFollowUp(leads: seq<Lead>, leadId: Value) {
    match FindIndex(leads, leadId)
    case None => false
    case Some(i) => StillNew(leads[i])
  }

  /** A lead is still new exactly when its status is missing, empty, or "Novo". */
  lemma StillNewIff(lead: Lead)
    ensures StillNew(lead) <==>
      "status" !in lead || lead["status"] == Str("") || lead["status"] == Str("Novo") || lead["status"] == Num(0)
  {
  }

  /** Right after a lead with status "Novo" is appended to the store, a
      follow-up about its identifier may be sent, unless an older lead
      carries the same identifier (then `getLeadById` finds that one). */
  lemma NewLeadCanFollowUp(leads: seq<Lead>, lead: Lead, id: Value)
    requires Get(lead, "id") == Some(id) && Get(lead, "status") == Some(Str("Novo"))
    ensures CanFollowUp(leads + [lead], id) <==> FindIndex(leads, id).None? || CanFollowUp(leads, id)
  {
    FindIndexAppend(leads, lead, id);
    if FindIndex(leads, id).None? {
      assert FindIndex(leads + [lead], id) == Some(|leads|);
      assert (leads + [lead])[|leads|] == lead;
    }
  }

  /** After `updateLeadStatus` on the lead, its follow-ups go on exactly when
      the new status is empty or "Novo". */
  lemma StatusDecides(leads: seq<Lead>, id: Value, status: Value, isoNow: string)
    requires FindIndex(leads, id).Some?
    ensures var i := FindIndex(leads, id).value;
      var after := Patch(leads, i, map["status" := status, "updated_at" := Str(isoNow)]);
      CanFollowUp(after, id) <==> !Truthy(status) || status == Str("Novo")
  {
    var i := FindIndex(leads, id).value;
    var fields := map["status" := status, "updated_at" := Str(isoNow)];
    PatchKeepsFindIndex(leads, i, fields, id);
    assert Patch(leads, i, fields)[i]["status"] == status;
  }

  /** An update that touches neither the status nor the identifier (notes,
      assignment) leaves every follow-up decision as it was. */
  lemma OtherUpdatesKeep(leads: seq<Lead>, i: nat, fields: map<string, Value>, id: Value)
    requires i < |leads| && "status" !in fields && "id" !in fields
    ensures CanFollowUp(Patch(leads, i, fields), id) == CanFollowUp(leads, id)
  {
    PatchKeepsFindIndex(leads, i, fields, id);
    var after := Patch(leads, i, fields);
    match FindIndex(leads, id) {
      case None =>
      case Some(j) =>
        assert Get(after[j], "status") == Get(leads[j], "status");
    }
  }
}
