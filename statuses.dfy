/** The canonical lead statuses and the mapping from the network's numeric state codes
    (GdeslonApi.js, `getLeadStatus`). */
module Statuses {
  import opened Wrappers

  /** The five canonical statuses; a code the mapping does not know is passed through as
      `Unknown(raw)`. */
  datatype Status = Open | Rejected | Hold | Approved | Paid | Unknown(raw: int)
  {
    /** A status that is one of the five canonical values. */
    predicate IsCanonical()
    {
      !Unknown?
    }
  }

  /** The statuses with a public name. */
  const CANONICAL: set<Status> := {Open, Rejected, Hold, Approved, Paid}

  /** Code 0 (new) is open, 1 (cancelled) rejected, 2 (deferred) hold, 3 (confirmed) approved,
      4 (paid out) paid; every other code comes back unchanged. */
  function LeadStatus(code: int): (s: Status)
    ensures s.IsCanonical() <==> 0 <= code <= 4
    ensures !s.IsCanonical() ==> s.raw == code
    ensures code == 0 <==> s == Open
    ensures code == 1 <==> s == Rejected
    ensures code == 2 <==> s == Hold
    ensures code == 3 <==> s == Approved
    ensures code == 4 <==> s == Paid
  {
    match code
    case 0 => Open
    case 1 => Rejected
    case 2 => Hold
    case 3 => Approved
    case 4 => Paid
    case _ => Unknown(code)
  }

  /** The network's code for a status: the inverse of `LeadStatus`. */
  function Code(s: Status): int
  {
    match s
    case Open => 0
    case Rejected => 1
    case Hold => 2
    case Approved => 3
    case Paid => 4
    case Unknown(raw) => raw
  }

  /** The status string callers see: the `STATUS_*` constants for the five canonical values,
      none for a passed-through code. */
  function Name(s: Status): (n: Option<string>)
    ensures n.Some? <==> s.IsCanonical()
  {
    match s
    case Open => Some("open")
    case Rejected => Some("rejected")
    case Hold => Some("hold")
    case Approved => Some("approved")
    case Paid => Some("paid")
    case Unknown(_) => None
  }

  /** `LeadStatus` loses nothing: the code can always be recovered, so distinct codes give
      distinct statuses. */
  lemma CodeRoundTrip(code: int)
    ensures Code(LeadStatus(code)) == code
  {
  }

  /** Every status `LeadStatus` can produce is produced from its own code. */
  lemma StatusRoundTrip(s: Status)
    requires s.Unknown? ==> !(0 <= s.raw <= 4)
    ensures LeadStatus(Code(s)) == s
  {
  }

  /** The five public names are distinct, so the name identifies the canonical status. */
  lemma NamesDistinct(s: Status, t: Status)
    requires s.IsCanonical() && t.IsCanonical()
    ensures Name(s) == Name(t) <==> s == t
  {
  }

  lemma CanonicalSet(s: Status)
    ensures s in CANONICAL <==> s.IsCanonical()
  {
  }
}
