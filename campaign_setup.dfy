/// The campaign setup form: drip settings and the three message intervals.
/// Each number field shows its value, or its default when the value is
/// unset, zero or `NaN`; editing one interval rebuilds the whole
/// three-entry interval list from what the other two fields show.
module CampaignSetup {
  import opened Js
  import opened CampaignWizard

  /** The defaults of the three intervals, in days: 2, 5 and 30. */
  function DefaultInterval(k: nat): (days: int)
    requires k < 3
    ensures days > 0
  {
    if k == 0 then 2 else if k == 1 then 5 else 30
  }

  /** `messageIntervals?.[k]`: undefined when the list or the entry is missing. */
  function Slot(intervals: Option<seq<Num>>, k: nat): Num {
    if intervals.Some? && k < |intervals.value| then intervals.value[k] else Undefined
  }

  /** What interval field `k` shows. */
  function IntervalShown(d: CampaignData, k: nat): (days: int)
    requires k < 3
    ensures days != 0
    ensures NumTruthy(Slot(d.messageIntervals, k)) ==> days == Slot(d.messageIntervals, k).n
    ensures !NumTruthy(Slot(d.messageIntervals, k)) ==> days == DefaultInterval(k)
  {
    NumOr(Slot(d.messageIntervals, k), DefaultInterval(k))
  }

  /** Typing into interval field `k`: the parsed number goes to slot `k`,
      each other slot gets what its field shows. */
  function EditInterval(d: CampaignData, k: nat, parsed: Num): (d': CampaignData)
    requires k < 3
    ensures d'.messageIntervals.Some? && |d'.messageIntervals.value| == 3
    ensures d'.messageIntervals.value[k] == parsed
    ensures forall j :: 0 <= j < 3 && j != k ==> d'.messageIntervals.value[j] == Int(IntervalShown(d, j))
    ensures d' == d.(messageIntervals := d'.messageIntervals)
  {
    var slots := seq(3, j requires 0 <= j < 3 => if j == k then parsed else Int(IntervalShown(d, j)));
    d.(messageIntervals := Some(slots))
  }

  /** An edit never changes what the other two fields show, and the edited
      field shows the parsed number, or its default when that is zero or
      `NaN`. */
  lemma EditShown(d: CampaignData, k: nat, parsed: Num)
    requires k < 3
    ensures forall j :: 0 <= j < 3 && j != k ==> IntervalShown(EditInterval(d, k, parsed), j) == IntervalShown(d, j)
    ensures IntervalShown(EditInterval(d, k, parsed), k) == NumOr(parsed, DefaultInterval(k))
  {
    var d' := EditInterval(d, k, parsed);
    forall j | 0 <= j < 3 && j != k
      ensures IntervalShown(d', j) == IntervalShown(d, j)
    {
      assert Slot(d'.messageIntervals, j) == Int(IntervalShown(d, j));
    }
  }

  /** Typing the same value into a field twice is the same as typing it once. */
  lemma EditIdempotent(d: CampaignData, k: nat, parsed: Num)
    requires k < 3
    ensures EditInterval(EditInterval(d, k, parsed), k, parsed) == EditInterval(d, k, parsed)
  {
    var d1 := EditInterval(d, k, parsed);
    var d2 := EditInterval(d1, k, parsed);
    EditShown(d, k, parsed);
    assert d2.messageIntervals.value == d1.messageIntervals.value;
  }

  /** Re-entering in field k the value it already shows leaves the data
      holding exactly the three intervals the fields showed, whatever it
      held before (a missing list, a longer one). */
  lemma EditNormalises(d: CampaignData, k: nat)
    requires k < 3
    ensures var d' := EditInterval(d, k, Int(IntervalShown(d, k)));
      d'.messageIntervals == Some([Int(IntervalShown(d, 0)), Int(IntervalShown(d, 1)), Int(IntervalShown(d, 2))])
  {
    var d' := EditInterval(d, k, Int(IntervalShown(d, k)));
    assert d'.messageIntervals.value[0] == Int(IntervalShown(d, 0));
    assert d'.messageIntervals.value[1] == Int(IntervalShown(d, 1));
    assert d'.messageIntervals.value[2] == Int(IntervalShown(d, 2));
    assert d'.messageIntervals.value == [Int(IntervalShown(d, 0)), Int(IntervalShown(d, 1)), Int(IntervalShown(d, 2))];
  }

  /** What the drip size field shows: 100 when unset, zero or `NaN`. */
  function DripSizeShown(d: CampaignData): (size: int)
    ensures size != 0
    ensures NumTruthy(d.dripSize) ==> size == d.dripSize.n
    ensures !NumTruthy(d.dripSize) ==> size == 100
  {
    NumOr(d.dripSize, 100)
  }

  /** What the drip interval field shows: 3 days when unset, zero or `NaN`. */
  function DripIntervalShown(d: CampaignData): (days: int)
    ensures days != 0
    ensures NumTruthy(d.dripIntervalDays) ==> days == d.dripIntervalDays.n
    ensures !NumTruthy(d.dripIntervalDays) ==> days == 3
  {
    NumOr(d.dripIntervalDays, 3)
  }

  /** A new wizard's setup form shows intervals 2, 5 and 30, a drip of 100
      every 3 days: the defaults and the initial data agree. */
  lemma InitialFormShowsDefaults(accountPhone: Option<string>)
    ensures var d := InitialData(accountPhone);
      && IntervalShown(d, 0) == 2 && IntervalShown(d, 1) == 5 && IntervalShown(d, 2) == 30
      && DripSizeShown(d) == 100 && DripIntervalShown(d) == 3
  {
  }
}
