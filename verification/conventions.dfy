/**
 * The process-wide conventions: three settings with fixed defaults, each
 * overwritten by its own setter and read back by its own getter.
 */
module Conventions {
  import opened Failures

  /** A `Func<Type, Type>` delegate, seen only as an opaque handle: the model never calls it. */
  datatype TypeFinder = TypeFinder(handle: nat)

  /** The three settings as one value. A null property name is `None`. */
  datatype Settings = Settings(
    aggregatesMustImplementApplyMethods: bool,
    aggregateIdPropertyName: Option<string>,
    findAggregateTypeForEventType: Option<TypeFinder>)

  /** Names one of the three settings. */
  datatype Key = FlagKey | NameKey | FinderKey

  /** The value held by one setting, whichever its type. */
  datatype SettingValue = Flag(flag: bool) | Name(name: Option<string>) | Finder(finder: Option<TypeFinder>)

  /** One setter call, with the value it is given. */
  datatype Assignment =
    | SetName(name: Option<string>)
    | SetFlag(flag: bool)
    | SetFinder(finder: Option<TypeFinder>)
  {
    /** The setting this call overwrites. */
    function Target(): Key {
      match this
      case SetName(_) => NameKey
      case SetFlag(_) => FlagKey
      case SetFinder(_) => FinderKey
    }

    /** The value this call stores. */
    function Stored(): SettingValue {
      match this
      case SetName(n) => Name(n)
      case SetFlag(b) => Flag(b)
      case SetFinder(f) => Finder(f)
    }
  }

  /** The value that setting `k` holds in `s`. */
  function ValueOf(s: Settings, k: Key): SettingValue {
    match k
    case FlagKey => Flag(s.aggregatesMustImplementApplyMethods)
    case NameKey => Name(s.aggregateIdPropertyName)
    case FinderKey => Finder(s.findAggregateTypeForEventType)
  }

  /** The settings before any setter has run. */
  function Defaults(): (s: Settings)
    ensures !s.aggregatesMustImplementApplyMethods
    ensures s.aggregateIdPropertyName == Some("AggregateId")
    ensures s.findAggregateTypeForEventType.None?
  {
    Settings(false, Some("AggregateId"), None)
  }

  /**
   * The settings after one setter call: the targeted setting holds exactly the
   * given value (no validation, so null and empty values are kept) and the
   * other two settings are as they were.
   */
  function Assign(s: Settings, a: Assignment): (r: Settings)
    ensures ValueOf(r, a.Target()) == a.Stored()
    ensures forall k :: k != a.Target() ==> ValueOf(r, k) == ValueOf(s, k)
  {
    match a
    case SetName(n) => s.(aggregateIdPropertyName := n)
    case SetFlag(b) => s.(aggregatesMustImplementApplyMethods := b)
    case SetFinder(f) => s.(findAggregateTypeForEventType := f)
  }

  /** The settings after the setter calls `calls`, made in order, starting from `s`. */
  function ApplyAll(s: Settings, calls: seq<Assignment>): Settings
    decreases |calls|
  {
    if calls == [] then s else Assign(ApplyAll(s, calls[..|calls| - 1]), calls[|calls| - 1])
  }

  /** Calling the same setter twice with the same value is the same as calling it once. */
  lemma AssignIdempotent(s: Settings, a: Assignment)
    ensures Assign(Assign(s, a), a) == Assign(s, a)
  {
  }

  /** A later call to the same setter wipes out an earlier one. */
  lemma AssignOverwrites(s: Settings, a: Assignment, b: Assignment)
    requires a.Target() == b.Target()
    ensures Assign(Assign(s, a), b) == Assign(s, b)
  {
  }

  /** Setters of different settings are independent, so their order does not matter. */
  lemma AssignCommutes(s: Settings, a: Assignment, b: Assignment)
    requires a.Target() != b.Target()
    ensures Assign(Assign(s, a), b) == Assign(Assign(s, b), a)
  {
  }

  /** A setting no call in `calls` targets keeps its starting value. */
  lemma {:induction false} Untouched(s: Settings, calls: seq<Assignment>, k: Key)
    requires forall j :: 0 <= j < |calls| ==> calls[j].Target() != k
    ensures ValueOf(ApplyAll(s, calls), k) == ValueOf(s, k)
    decreases |calls|
  {
    if calls != [] {
      Untouched(s, calls[..|calls| - 1], k);
    }
  }

  /**
   * Last write wins: if `calls[i]` is the last call targeting setting `k`,
   * the setting ends up holding exactly what that call stored.
   */
  lemma {:induction false} LastWriteWins(s: Settings, calls: seq<Assignment>, i: nat)
    requires i < |calls|
    requires forall j :: i < j < |calls| ==> calls[j].Target() != calls[i].Target()
    ensures ValueOf(ApplyAll(s, calls), calls[i].Target()) == calls[i].Stored()
    decreases |calls|
  {
    if i < |calls| - 1 {
      LastWriteWins(s, calls[..|calls| - 1], i);
    }
  }

  /**
   * Reading a setting after any sequence of setter calls from the defaults:
   * the value of the last call targeting it, or its default if there was none.
   */
  lemma {:induction false} ReadAfterCalls(calls: seq<Assignment>, k: Key)
    ensures (forall j :: 0 <= j < |calls| ==> calls[j].Target() != k) ==>
      ValueOf(ApplyAll(Defaults(), calls), k) == ValueOf(Defaults(), k)
    ensures forall i ::
      (0 <= i < |calls| && calls[i].Target() == k && (forall j :: i < j < |calls| ==> calls[j].Target() != k))
      ==> ValueOf(ApplyAll(Defaults(), calls), k) == calls[i].Stored()
  {
    if forall j :: 0 <= j < |calls| ==> calls[j].Target() != k {
      Untouched(Defaults(), calls, k);
    }
    forall i | 0 <= i < |calls| && calls[i].Target() == k &&
      (forall j :: i < j < |calls| ==> calls[j].Target() != k)
      ensures ValueOf(ApplyAll(Defaults(), calls), k) == calls[i].Stored()
    {
      LastWriteWins(Defaults(), calls, i);
    }
  }

  /**
   * The conventions holder. The source keeps the three settings in static
   * fields, so one process has one of these; each setter overwrites one field.
   */
  class Conventions {
    var aggregatesMustImplementApplyMethods: bool
    var aggregateIdPropertyName: Option<string>
    var findAggregateTypeForEventType: Option<TypeFinder>

    /** The three fields as one `Settings` value. */
    function Current(): Settings
      reads this
    {
      Settings(aggregatesMustImplementApplyMethods, aggregateIdPropertyName, findAggregateTypeForEventType)
    }

    /** The static initialisers: the three defaults. */
    constructor ()
      ensures Current() == Defaults()
      ensures !AggregatesMustImplementApplyMethods()
      ensures AggregateIdPropertyName() == Some("AggregateId")
      ensures FindAggregateTypeForEventType() == None
    {
      aggregatesMustImplementApplyMethods := false;
      aggregateIdPropertyName := Some("AggregateId");
      findAggregateTypeForEventType := None;
    }

    function AggregateIdPropertyName(): Option<string>
      reads this
    {
      aggregateIdPropertyName
    }

    function AggregatesMustImplementApplyMethods(): bool
      reads this
    {
      aggregatesMustImplementApplyMethods
    }

    function FindAggregateTypeForEventType(): Option<TypeFinder>
      reads this
    {
      findAggregateTypeForEventType
    }

    method SetAggregateIdPropertyName(value: Option<string>)
      modifies this
      ensures Current() == Assign(old(Current()), SetName(value))
      ensures AggregateIdPropertyName() == value
      ensures AggregatesMustImplementApplyMethods() == old(AggregatesMustImplementApplyMethods())
      ensures FindAggregateTypeForEventType() == old(FindAggregateTypeForEventType())
    {
      aggregateIdPropertyName := value;
    }

    method SetAggregatesMustImplementApplymethods(value: bool)
      modifies this
      ensures Current() == Assign(old(Current()), SetFlag(value))
      ensures AggregatesMustImplementApplyMethods() == value
      ensures AggregateIdPropertyName() == old(AggregateIdPropertyName())
      ensures FindAggregateTypeForEventType() == old(FindAggregateTypeForEventType())
    {
      aggregatesMustImplementApplyMethods := value;
    }

    method SetFindAggregateTypeForEventType(finder: Option<TypeFinder>)
      modifies this
      ensures Current() == Assign(old(Current()), SetFinder(finder))
      ensures FindAggregateTypeForEventType() == finder
      ensures AggregateIdPropertyName() == old(AggregateIdPropertyName())
      ensures AggregatesMustImplementApplyMethods() == old(AggregatesMustImplementApplyMethods())
    {
      findAggregateTypeForEventType := finder;
    }
  }
}
