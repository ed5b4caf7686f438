/**
 * The admin app's `StatusBadge`: the label and colour shown for a course
 * status, with the draft badge for any status it does not know.
 */
module StatusBadge {
  datatype Badge = Badge(text: string, color: string)

  const KnownStatuses: seq<string> := ["pending", "approved", "rejected", "draft"]

  /** A status with a badge of its own. */
  predicate HasOwnBadge(status: string) {
    status == "pending" || status == "approved" || status == "rejected"
  }

  const DraftBadge: Badge := Badge("Draft", "text-gray-600")

  function BadgeFor(status: string): (b: Badge)
    ensures status == "pending" ==> b.text == "Pending"
    ensures status == "approved" ==> b.text == "Approved"
    ensures status == "rejected" ==> b.text == "Rejected"
    ensures !HasOwnBadge(status) ==> b == DraftBadge
  {
    if status == "pending" then Badge("Pending", "text-amber-600")
    else if status == "approved" then Badge("Approved", "text-emerald-600")
    else if status == "rejected" then Badge("Rejected", "text-red-600")
    else DraftBadge
  }

  /** The four known statuses get four different labels, so the label tells the status back. */
  lemma LabelsTellStatus(s: string, t: string)
    requires s in KnownStatuses && t in KnownStatuses
    ensures BadgeFor(s).text == BadgeFor(t).text <==> s == t
  {
  }

  /** Every status shows one of the four labels. */
  lemma LabelsAreKnown(status: string)
    ensures BadgeFor(status).text in ["Pending", "Approved", "Rejected", "Draft"]
    ensures BadgeFor(status) == BadgeFor("draft") <==> !HasOwnBadge(status)
  {
  }
}
