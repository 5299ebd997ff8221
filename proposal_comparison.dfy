/**
 * components/timeline/TimelineProposalComparison.tsx: the side-by-side view of
 * a client's scope-change proposal against the current timeline. The view is
 * a function of the loaded proposal: the proposed totals, the two delta badges,
 * the two impact lines and the change-order request its button makes. JavaScript
 * numbers are `real`; their rendering (`toLocaleString`, `toFixed`) is not
 * modelled.
 */
module ProposalComparison {
  import opened Js
  import UseToast

  /** A proposal as the chat endpoint returns it. */
  datatype Proposal = Proposal(
    id: string,
    summary: string,
    deltaCost: real,
    deltaWeeks: real,
    changes: seq<string>,
    reasoning: string,
    status: string,
    createdAt: string)

  /** The current timeline's totals. */
  datatype Totals = Totals(totalCost: real, totalWeeks: real)

  /** The outcome of the history request: a parsed body whose `proposals` may be missing, or a thrown error. */
  datatype LoadResponse = Loaded(proposals: Option<seq<Proposal>>) | NotOk | Failed

  /** What loading leaves: the proposal shown, if any, and the toast raised, if any. */
  datatype LoadOutcome = LoadOutcome(proposal: Option<Proposal>, toast: Option<UseToast.ToastProps>)

  /** `proposals.find(p => p.id === proposalId)`. */
  function FindById(proposals: seq<Proposal>, proposalId: string): (r: Option<Proposal>)
    ensures r.None? <==> forall p :: p in proposals ==> p.id != proposalId
    ensures r.Some? ==> exists i :: 0 <= i < |proposals| && proposals[i] == r.value && r.value.id == proposalId
                          && forall k :: 0 <= k < i ==> proposals[k].id != proposalId
  {
    if proposals == [] then None
    else if proposals[0].id == proposalId then Some(proposals[0])
    else
      var rest := FindById(proposals[1..], proposalId);
      assert rest.Some? ==> exists i :: 1 <= i < |proposals| && proposals[i] == rest.value && rest.value.id == proposalId
                              && forall k :: 0 <= k < i ==> proposals[k].id != proposalId by {
        if rest.Some? {
          var j :| 0 <= j < |proposals[1..]| && proposals[1..][j] == rest.value && rest.value.id == proposalId
                   && forall k :: 0 <= k < j ==> proposals[1..][k].id != proposalId;
          assert proposals[j + 1] == rest.value;
          forall k | 0 <= k < j + 1 ensures proposals[k].id != proposalId {
            if k > 0 {
              assert proposals[k] == proposals[1..][k - 1];
            }
          }
        }
      }
      assert rest.None? ==> forall p :: p in proposals ==> p.id != proposalId by {
        if rest.None? {
          forall p | p in proposals ensures p.id != proposalId {
            if p != proposals[0] {
              var i :| 0 <= i < |proposals| && proposals[i] == p;
              assert proposals[1..][i - 1] == p;
            }
          }
        }
      }
      rest
  }

  /**
   * `loadProposal`: an ok response selects the first proposal with the
   * requested id (a missing list selects nothing) and raises "Proposal not
   * found" when there is none; a non-ok response selects nothing silently; a
   * thrown error raises the error toast.
   */
  function LoadProposal(response: LoadResponse, proposalId: string): (r: LoadOutcome)
    ensures r.proposal.Some? ==> response.Loaded? && r.proposal.value.id == proposalId && r.toast.None?
    ensures response.Loaded? && response.proposals.Some? ==> r.proposal == FindById(response.proposals.value, proposalId)
    ensures response.Loaded? && r.proposal.None? ==>
      r.toast == Some(UseToast.ToastProps(Some("Proposal not found"), None, Some(UseToast.Destructive)))
    ensures response.NotOk? ==> r == LoadOutcome(None, None)
    ensures response.Failed? ==>
      r == LoadOutcome(None, Some(UseToast.ToastProps(Some("Error"), Some("Failed to load proposal details"), Some(UseToast.Destructive))))
  {
    match response
    case Loaded(proposals) =>
      var found := if proposals.Some? then FindById(proposals.value, proposalId) else None;
      if found.Some? then LoadOutcome(found, None)
      else LoadOutcome(None, Some(UseToast.ToastProps(Some("Proposal not found"), None, Some(UseToast.Destructive))))
    case NotOk => LoadOutcome(None, None)
    case Failed =>
      LoadOutcome(None, Some(UseToast.ToastProps(Some("Error"), Some("Failed to load proposal details"), Some(UseToast.Destructive))))
  }

  /** The proposed totals: the current totals moved by the proposal's deltas. */
  function ProposedCost(current: Totals, p: Proposal): real {
    current.totalCost + p.deltaCost
  }

  function ProposedWeeks(current: Totals, p: Proposal): real {
    current.totalWeeks + p.deltaWeeks
  }

  /** A delta badge: its variant, the `+` prefix and the number it shows. */
  datatype Badge = Badge(destructive: bool, prefix: string, amount: real)

  /** The weeks badge shows the delta itself, so a negative one carries its own minus sign. */
  function WeeksBadge(p: Proposal): Option<Badge> {
    if p.deltaWeeks != 0.0 then
      Some(Badge(p.deltaWeeks > 0.0, if p.deltaWeeks > 0.0 then "+" else "", p.deltaWeeks))
    else None
  }

  /** The cost badge shows the delta's absolute value after `$`. */
  function CostBadge(p: Proposal): Option<Badge> {
    if p.deltaCost != 0.0 then
      Some(Badge(p.deltaCost > 0.0, if p.deltaCost > 0.0 then "+" else "", Abs(p.deltaCost)))
    else None
  }

  /**
   * A badge appears exactly when its delta is non-zero; it is destructive and
   * carries `+` exactly when the delta is positive. The cost badge's number is
   * never negative, and with its sign restored it is the delta again.
   */
  lemma BadgeShape(p: Proposal)
    ensures WeeksBadge(p).Some? <==> p.deltaWeeks != 0.0
    ensures CostBadge(p).Some? <==> p.deltaCost != 0.0
    ensures WeeksBadge(p).Some? ==>
      && (WeeksBadge(p).value.prefix == "+" <==> p.deltaWeeks > 0.0)
      && (WeeksBadge(p).value.destructive <==> p.deltaWeeks > 0.0)
      && WeeksBadge(p).value.amount == p.deltaWeeks
    ensures CostBadge(p).Some? ==>
      && (CostBadge(p).value.prefix == "+" <==> p.deltaCost > 0.0)
      && (CostBadge(p).value.destructive <==> p.deltaCost > 0.0)
      && CostBadge(p).value.amount > 0.0
      && (if CostBadge(p).value.prefix == "+" then CostBadge(p).value.amount else -CostBadge(p).value.amount) == p.deltaCost
  {
  }

  /** The three-way impact classification of a delta, carrying the magnitude shown. */
  datatype Impact = NoChange | Increase(amount: real) | Decrease(amount: real)

  function ImpactOf(delta: real): (r: Impact)
    ensures r.Increase? || r.Decrease? ==> r.amount > 0.0
  {
    if delta == 0.0 then NoChange
    else if delta > 0.0 then Increase(delta)
    else Decrease(Abs(delta))
  }

  /** The signed change an impact describes. */
  function Signed(i: Impact): real {
    match i
    case NoChange => 0.0
    case Increase(a) => a
    case Decrease(a) => -a
  }

  /** The words that precede the amount (or stand alone) in the timeline impact line. */
  function TimelineImpactText(i: Impact): string {
    match i
    case NoChange => "No change to timeline"
    case Increase(_) => "Timeline extended by "
    case Decrease(_) => "Timeline reduced by "
  }

  function CostImpactText(i: Impact): string {
    match i
    case NoChange => "No change to cost"
    case Increase(_) => "Additional investment of $"
    case Decrease(_) => "Cost savings of $"
  }

  /**
   * The impact lines agree with the proposed totals: the change they describe,
   * added to the current total, is the proposed total, and the classification
   * follows the sign of the delta.
   */
  lemma ImpactMatchesTotals(current: Totals, p: Proposal)
    ensures current.totalWeeks + Signed(ImpactOf(p.deltaWeeks)) == ProposedWeeks(current, p)
    ensures current.totalCost + Signed(ImpactOf(p.deltaCost)) == ProposedCost(current, p)
    ensures ImpactOf(p.deltaWeeks).NoChange? <==> ProposedWeeks(current, p) == current.totalWeeks
    ensures ImpactOf(p.deltaWeeks).Increase? <==> ProposedWeeks(current, p) > current.totalWeeks
    ensures ImpactOf(p.deltaCost).NoChange? <==> ProposedCost(current, p) == current.totalCost
    ensures ImpactOf(p.deltaCost).Increase? <==> ProposedCost(current, p) > current.totalCost
    ensures ImpactOf(p.deltaCost).Decrease? <==> ProposedCost(current, p) < current.totalCost
  {
  }

  /** A badge is shown exactly when the impact line reports a change, and carries `+` exactly for an increase. */
  lemma BadgeAgreesWithImpact(p: Proposal)
    ensures CostBadge(p).Some? <==> !ImpactOf(p.deltaCost).NoChange?
    ensures CostBadge(p).Some? ==>
      (CostBadge(p).value.prefix == "+" <==> ImpactOf(p.deltaCost).Increase?)
      && CostBadge(p).value.amount == ImpactOf(p.deltaCost).amount
    ensures WeeksBadge(p).Some? <==> !ImpactOf(p.deltaWeeks).NoChange?
    ensures WeeksBadge(p).Some? ==> (WeeksBadge(p).value.prefix == "+" <==> ImpactOf(p.deltaWeeks).Increase?)
  {
  }

  /** The arguments of `onRequestChangeOrder`. */
  datatype ChangeOrderRequest = ChangeOrderRequest(proposalId: string, clientEmail: Option<string>)

  /** "Request This Change": the component's own `proposalId` and `clientEmail`, nothing from elsewhere. */
  function RequestChange(proposalId: string, clientEmail: Option<string>): ChangeOrderRequest {
    ChangeOrderRequest(proposalId, clientEmail)
  }

  /** The request names the proposal on screen, since the one shown was found by that id. */
  lemma RequestNamesShownProposal(response: LoadResponse, proposalId: string, clientEmail: Option<string>)
    requires LoadProposal(response, proposalId).proposal.Some?
    ensures RequestChange(proposalId, clientEmail).proposalId == LoadProposal(response, proposalId).proposal.value.id
    ensures RequestChange(proposalId, clientEmail).clientEmail == clientEmail
  {
  }
}
