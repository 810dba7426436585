/** The status chip atom: a colour variant per expense status and the text it
    shows. */
module StatusChip {
  import opened Common

  datatype ChipStatus = Pending | Approved | Rejected | Draft | WaitingApproval

  function Key(s: ChipStatus): string
  {
    match s
    case Pending => "pending"
    case Approved => "approved"
    case Rejected => "rejected"
    case Draft => "draft"
    case WaitingApproval => "waiting-approval"
  }

  /** `defaultVariants`: with no status the `pending` variant applies. */
  function VariantStatus(status: Option<ChipStatus>): (s: ChipStatus)
    ensures status.None? ==> s == Pending
    ensures status.Some? ==> s == status.value
  {
    if status.Some? then status.value else Pending
  }

  /** The classes of each variant. */
  function VariantClasses(status: ChipStatus): string
  {
    match status
    case Pending => "bg-yellow-100 text-yellow-800 border border-yellow-200"
    case Approved => "bg-green-100 text-green-800 border border-green-200"
    case Rejected => "bg-red-100 text-red-800 border border-red-200"
    case Draft => "bg-gray-100 text-gray-800 border border-gray-200"
    case WaitingApproval => "bg-blue-100 text-blue-800 border border-blue-200"
  }

  /** `s.replace(from, to)` with a one-character string pattern. */
  function ReplaceFirst(s: string, from: char, to: char): (r: string)
    ensures |r| == |s|
    ensures from !in s ==> r == s
  {
    if |s| == 0 then s
    else if s[0] == from then [to] + s[1..]
    else [s[0]] + ReplaceFirst(s[1..], from, to)
  }

  /** Only the FIRST occurrence is replaced: whatever follows it is kept as it is,
      later occurrences included. */
  lemma {:induction false} ReplaceFirstAt(p: string, from: char, to: char, q: string)
    requires from !in p
    ensures ReplaceFirst(p + [from] + q, from, to) == p + [to] + q
  {
    if |p| > 0 {
      ReplaceFirstAt(p[1..], from, to, q);
      assert (p + [from] + q)[1..] == p[1..] + [from] + q;
    }
  }

  /** `children || status.replace('-', ' ').toUpperCase()`: non-empty children win. */
  function DisplayText(status: ChipStatus, children: Option<string>): (shown: string)
    ensures children.Some? && children.value != "" ==> shown == children.value
    ensures children.None? || children.value == "" ==> |shown| == |Key(status)|
    ensures (children.None? || children.value == "") && '-' !in Key(status) ==> shown == Upper(Key(status))
  {
    if children.Some? && children.value != "" then children.value
    else Upper(ReplaceFirst(Key(status), '-', ' '))
  }

  /** The upper-case forms of the keys' words. */
  lemma UpperLabels()
    ensures Upper("waiting") == "WAITING" && Upper("approval") == "APPROVAL"
    ensures Upper("pending") == "PENDING" && Upper("approved") == "APPROVED"
    ensures Upper("rejected") == "REJECTED" && Upper("draft") == "DRAFT"
  {
  }

  /** Without children, a key with a hyphen shows the upper-cased parts around its
      first hyphen, joined by a space. */
  lemma {:induction false} HyphenatedLabel(status: ChipStatus, p: string, q: string)
    requires Key(status) == p + "-" + q
    requires '-' !in p
    ensures DisplayText(status, None) == Upper(p) + " " + Upper(q)
  {
    ReplaceFirstAt(p, '-', ' ', q);
    UpperConcat(p + [' '], q);
    UpperConcat(p, [' ']);
    assert Upper([' ']) == " ";
  }

  lemma UpperConcat(a: string, b: string)
    ensures Upper(a + b) == Upper(a) + Upper(b)
  {
    assert forall i | 0 <= i < |a + b| :: Upper(a + b)[i] == (Upper(a) + Upper(b))[i];
  }

  /** "waiting-approval" is shown as "WAITING APPROVAL" (see `UpperLabels`). */
  lemma WaitingApprovalLabel()
    ensures DisplayText(WaitingApproval, None) == Upper("waiting") + " " + Upper("approval")
  {
    HyphenatedLabel(WaitingApproval, "waiting", "approval");
  }

  /** Every status but "waiting-approval" has a key without a hyphen, so without
      children, or with empty ones, it shows its key upper-cased: PENDING,
      APPROVED, REJECTED and DRAFT (see `UpperLabels`). */
  lemma PlainLabels(status: ChipStatus)
    ensures status != WaitingApproval ==>
      DisplayText(status, None) == Upper(Key(status)) && DisplayText(status, Some("")) == Upper(Key(status))
  {
    if status != WaitingApproval {
      assert '-' !in Key(status);
    }
  }

  /** A second hyphen would stay. */
  lemma ReplacesOnlyFirst()
    ensures ReplaceFirst("a-b-c", '-', ' ') == "a b-c"
  {
    ReplaceFirstAt("a", '-', ' ', "b-c");
    assert "a" + ['-'] + "b-c" == "a-b-c";
    assert "a" + [' '] + "b-c" == "a b-c";
  }
}
