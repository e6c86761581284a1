/**
 * The proposal management list (src/pages/proposals/page.tsx): the
 * sent/received tabs and their counts, the status label and badge mappings,
 * and which counterpart and action links a card shows.
 */
module ProposalsList {
  import opened Lists

  datatype Proposal = Proposal(
    id: string, projectId: string, projectTitle: string,
    vendorId: string, vendorName: string, clientId: string, clientName: string,
    message: string, estimatedPrice: real, estimatedDuration: real,
    status: string, createdAt: string, kind: string)

  /** The three filter buttons. */
  datatype Tab = All | Sent | Received

  function TabKind(tab: Tab): string
    requires tab != All
  {
    if tab == Sent then "sent" else "received"
  }

  predicate InTab(p: Proposal, tab: Tab) {
    tab == All || p.kind == TabKind(tab)
  }

  /**
   * `filteredProposals`: every proposal under `all`, and under `sent` or
   * `received` exactly those of that type, in their original order.
   */
  function FilteredProposals(ps: seq<Proposal>, tab: Tab): (r: seq<Proposal>)
    ensures IsSubsequence(r, ps)
    ensures tab == All ==> r == ps
    ensures tab != All ==> forall p :: p in r <==> p in ps && p.kind == TabKind(tab)
    ensures tab != All ==> forall p :: multiset(r)[p] == if p.kind == TabKind(tab) then multiset(ps)[p] else 0
  {
    var r := Filter(ps, (p: Proposal) => InTab(p, tab));
    if tab == All then
      FilterKeepsAll(ps, (p: Proposal) => InTab(p, tab));
      r
    else r
  }

  /** The count on a tab button: `proposals.filter(p => p.type === kind).length`. */
  function KindCount(ps: seq<Proposal>, kind: string): (n: nat)
    ensures n <= |ps|
  {
    Count(ps, (p: Proposal) => p.kind == kind)
  }

  /** The sent and received buttons count what their tabs list. */
  lemma TabCountMatchesList(ps: seq<Proposal>, tab: Tab)
    requires tab != All
    ensures |FilteredProposals(ps, tab)| == KindCount(ps, TabKind(tab))
  {
    FilterAgrees(ps, (p: Proposal) => InTab(p, tab), (p: Proposal) => p.kind == TabKind(tab));
  }

  /** When every type is `sent` or `received`, the two counts add up to the `all` count. */
  lemma SentPlusReceivedIsAll(ps: seq<Proposal>)
    requires forall p | p in ps :: p.kind == "sent" || p.kind == "received"
    ensures KindCount(ps, "sent") + KindCount(ps, "received") == |FilteredProposals(ps, All)|
  {
    CountSplit(ps, (p: Proposal) => p.kind == "sent", (p: Proposal) => p.kind == "received");
  }

  /** `getStatusText`: the four known statuses have their labels; any other status is shown as it is. */
  function StatusText(status: string): (r: string)
    ensures status !in KnownStatuses() ==> r == status
  {
    match status
    case "pending" => "審査中"
    case "accepted" => "承認済み"
    case "rejected" => "却下"
    case "rejected_auto" => "自動却下"
    case _ => status
  }

  function KnownStatuses(): set<string> {
    {"pending", "accepted", "rejected", "rejected_auto"}
  }

  /** The known statuses get four different labels, none of which is a status name. */
  lemma StatusTextsDistinct()
    ensures forall s, t | s in KnownStatuses() && t in KnownStatuses() && s != t :: StatusText(s) != StatusText(t)
    ensures forall s | s in KnownStatuses() :: StatusText(s) !in KnownStatuses()
  {
  }

  datatype BadgeColor = Yellow | Green | Red | Gray

  /** `getStatusBadge`, by the colour of its class. */
  function StatusBadge(status: string): (r: BadgeColor)
    ensures r == Red <==> status == "rejected" || status == "rejected_auto"
    ensures r == Gray <==> status !in KnownStatuses()
  {
    match status
    case "pending" => Yellow
    case "accepted" => Green
    case "rejected" => Red
    case "rejected_auto" => Red
    case _ => Gray
  }

  /** Both rejection kinds share the red badge but have different labels. */
  lemma RejectionsShareBadge()
    ensures StatusBadge("rejected") == StatusBadge("rejected_auto") == Red
    ensures StatusText("rejected") != StatusText("rejected_auto")
  {
  }

  /** The "confirm proposal" link. */
  predicate ShowsConfirmLink(p: Proposal) {
    p.kind == "received" && p.status == "pending"
  }

  /** The "open chat" link. */
  predicate ShowsChatLink(p: Proposal) {
    p.status == "accepted"
  }

  /** A card offers at most one of the two action links, and a sent proposal never the confirm link. */
  lemma ActionLinksExclusive(p: Proposal)
    ensures !(ShowsConfirmLink(p) && ShowsChatLink(p))
    ensures p.kind == "sent" ==> !ShowsConfirmLink(p)
    ensures ShowsConfirmLink(p) ==> StatusBadge(p.status) == Yellow
  {
  }

  datatype Role = ClientRole | VendorRole

  /** The other party shown on a card: the client for a sent proposal, the vendor otherwise. */
  function Counterpart(p: Proposal): (r: (Role, string))
    ensures p.kind == "sent" ==> r == (ClientRole, p.clientName)
    ensures p.kind != "sent" ==> r == (VendorRole, p.vendorName)
  {
    if p.kind == "sent" then (ClientRole, p.clientName) else (VendorRole, p.vendorName)
  }

  /**
   * On the sent tab every card names its client, on the received tab every
   * card names its vendor.
   */
  lemma CounterpartByTab(ps: seq<Proposal>, tab: Tab, p: Proposal)
    requires tab != All && p in FilteredProposals(ps, tab)
    ensures tab == Sent ==> Counterpart(p) == (ClientRole, p.clientName)
    ensures tab == Received ==> Counterpart(p) == (VendorRole, p.vendorName)
  {
    assert p.kind == TabKind(tab);
  }
}
