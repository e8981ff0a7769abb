/** The destination screen (pages/DestinationDetail.tsx): which tabs each plan
    unlocks and which plan each unlock button selects, the icon chosen for a
    transport mode, and the visa document checklist with its ready count. */
module DestinationDetail {
  import opened Types
  import Text

  datatype Tab = Overview | VisaTab | PlanTab | TransportTab

  /** `isVisaLocked`. */
  predicate IsVisaLocked(plan: UserPlan) {
    plan == Free
  }

  /** `isTransportLocked`. */
  predicate IsTransportLocked(plan: UserPlan) {
    plan == Free || plan == Plus
  }

  /** Whether a tab shows the unlock overlay; overview and plan never do. */
  function Locked(tab: Tab, plan: UserPlan): (locked: bool)
    ensures tab == VisaTab ==> (locked <==> plan == Free)
    ensures tab == TransportTab ==> (locked <==> plan != Premium)
    ensures tab == Overview || tab == PlanTab ==> !locked
  {
    match tab
    case VisaTab => IsVisaLocked(plan)
    case TransportTab => IsTransportLocked(plan)
    case _ => false
  }

  /** The plan the overlay's button selects on a locked tab. */
  function UnlockTarget(tab: Tab): (plan: UserPlan)
    requires tab == VisaTab || tab == TransportTab
    ensures tab == VisaTab ==> plan == Plus
    ensures tab == TransportTab ==> plan == Premium
  {
    if tab == VisaTab then Plus else Premium
  }

  /** The plans are ordered: whatever opens transport opens visa too. */
  lemma TransportImpliesVisa(plan: UserPlan)
    ensures !Locked(TransportTab, plan) ==> !Locked(VisaTab, plan)
  {
  }

  /** Each unlock button opens its own tab. The visa upgrade leaves transport
      locked, the transport upgrade opens every tab. */
  lemma UnlockOpens(tab: Tab)
    requires tab == VisaTab || tab == TransportTab
    ensures !Locked(tab, UnlockTarget(tab))
    ensures tab == VisaTab ==> Locked(TransportTab, UnlockTarget(tab))
    ensures tab == TransportTab ==> forall t :: !Locked(t, UnlockTarget(tab))
  {
  }

  // ---------------------------------------------------------------- transport icon

  datatype Icon = TrainIcon | BusIcon | CarIcon

  /** `getTransportIcon`: rail words win over bus words; anything else is a car. */
  function TransportIcon(mode: string): (icon: Icon)
    ensures icon == TrainIcon <==>
              var t := Text.ToLower(mode);
              Text.Contains(t, "train") || Text.Contains(t, "metro") || Text.Contains(t, "subway") || Text.Contains(t, "rail")
    ensures icon == BusIcon <==>
              var t := Text.ToLower(mode);
              !(Text.Contains(t, "train") || Text.Contains(t, "metro") || Text.Contains(t, "subway") || Text.Contains(t, "rail"))
              && (Text.Contains(t, "bus") || Text.Contains(t, "shuttle"))
    ensures icon == CarIcon <==>
              var t := Text.ToLower(mode);
              !(Text.Contains(t, "train") || Text.Contains(t, "metro") || Text.Contains(t, "subway") || Text.Contains(t, "rail"))
              && !(Text.Contains(t, "bus") || Text.Contains(t, "shuttle"))
  {
    var t := Text.ToLower(mode);
    if Text.Contains(t, "train") || Text.Contains(t, "metro") || Text.Contains(t, "subway") || Text.Contains(t, "rail")
    then TrainIcon
    else if Text.Contains(t, "bus") || Text.Contains(t, "shuttle") then BusIcon
    else CarIcon
  }

  /** The icon does not depend on letter case. */
  lemma TransportIconIgnoresCase(mode: string)
    ensures TransportIcon(Text.ToUpper(mode)) == TransportIcon(mode)
    ensures TransportIcon(Text.ToLower(mode)) == TransportIcon(mode)
  {
    Text.LowerOfUpper(mode);
    LowerIdempotent(mode);
  }

  lemma LowerIdempotent(s: string)
    ensures Text.ToLower(Text.ToLower(s)) == Text.ToLower(s)
  {
    var a, b := Text.ToLower(Text.ToLower(s)), Text.ToLower(s);
    assert forall i :: 0 <= i < |s| ==> a[i] == b[i];
  }

  /** A word found in a string is still found when anything is put around it. */
  lemma {:induction false} ContainsInContext(x: string, w: string, y: string)
    ensures Text.Contains(x + w + y, w)
    decreases |x|
  {
    if x == [] {
      assert x + w + y == w + y;
      assert (w + y)[..|w|] == w;
    } else {
      ContainsInContext(x[1..], w, y);
      assert (x + w + y)[1..] == x[1..] + w + y;
    }
  }

  /** A mode naming a rail service gets the train icon, even when it also
      names a bus. */
  lemma RailWinsOverBus(x: string, y: string)
    requires Text.ToLower(x + "rail" + y) == x + "rail" + y
    ensures TransportIcon(x + "rail" + y) == TrainIcon
  {
    ContainsInContext(x, "rail", y);
  }

  // ---------------------------------------------------------------- document checklist

  /** `!prev[doc]`: a document never tapped reads as unchecked. */
  function Checked(flags: map<string, bool>, doc: string): bool {
    doc in flags && flags[doc]
  }

  /** `toggleDoc`: the tapped document's flag is flipped, the others kept. */
  function ToggleDoc(flags: map<string, bool>, doc: string): (r: map<string, bool>)
    ensures r.Keys == flags.Keys + {doc}
    ensures Checked(r, doc) == !Checked(flags, doc)
    ensures forall d :: d in flags && d != doc ==> r[d] == flags[d]
  {
    flags[doc := !Checked(flags, doc)]
  }

  /** Tapping a document twice restores what it showed. */
  lemma ToggleTwice(flags: map<string, bool>, doc: string, other: string)
    ensures Checked(ToggleDoc(ToggleDoc(flags, doc), doc), other) == Checked(flags, other)
  {
  }

  /** The documents marked ready. */
  function ReadySet(flags: map<string, bool>): set<string> {
    set d | d in flags && flags[d]
  }

  /** The "n Ready" count: the flags set to true. */
  function ReadyCount(flags: map<string, bool>): (n: nat)
    ensures n == |ReadySet(flags)| && n <= |flags|
  {
    assert ReadySet(flags) <= flags.Keys;
    CardinalitySubset(ReadySet(flags), flags.Keys);
    |ReadySet(flags)|
  }

  lemma CardinalitySubset(a: set<string>, b: set<string>)
    requires a <= b
    ensures |a| <= |b|
  {
    assert b == a + (b - a);
  }

  /** Each tap moves the ready count by exactly one. */
  lemma ToggleMovesCount(flags: map<string, bool>, doc: string)
    ensures Checked(flags, doc) ==> ReadyCount(ToggleDoc(flags, doc)) == ReadyCount(flags) - 1
    ensures !Checked(flags, doc) ==> ReadyCount(ToggleDoc(flags, doc)) == ReadyCount(flags) + 1
  {
    var r := ToggleDoc(flags, doc);
    if Checked(flags, doc) {
      assert ReadySet(r) == ReadySet(flags) - {doc};
    } else {
      assert ReadySet(r) == ReadySet(flags) + {doc};
    }
  }
}
