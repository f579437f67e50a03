/**
 * The three-state field of an active model (`ActiveValue`): a value explicitly `Set` by the
 * application, a value `Unchanged` from the database, or `NotSet`. The state decides whether a
 * column appears in an INSERT column list or an UPDATE SET list.
 *
 * `is_set`, `is_unchanged` and `is_not_set` are Dafny's discriminators `Set?`, `Unchanged?` and
 * `NotSet?`; the constructors `set`, `unchanged` and `not_set` are the datatype constructors.
 */
module ActiveValues {
  import opened Wrappers

  datatype ActiveValue<V(==)> = Set(value: V) | Unchanged(value: V) | NotSet {

    /** `try_as_ref`: the payload of a `Set` or `Unchanged` slot; nothing for `NotSet`. */
    function TryAsRef(): (r: Option<V>)
      ensures r.Some? <==> !NotSet?
      ensures r.Some? ==> r.value == value
    {
      match this
      case Set(v) => Some(v)
      case Unchanged(v) => Some(v)
      case NotSet => None
    }

    /** `unwrap` (and `as_ref`): the payload; calling it on `NotSet` panics, so callers must not. */
    function Unwrap(): (v: V)
      requires !NotSet?
      ensures TryAsRef() == Some(v)
    {
      match this
      case Set(v) => v
      case Unchanged(v) => v
    }

    /** `into_value`: the payload converted into a database value with `into`. */
    function IntoValue<W>(into: V -> W): (r: Option<W>)
      ensures r.Some? <==> !NotSet?
      ensures r.Some? ==> r.value == into(value)
    {
      match this
      case Set(v) => Some(into(v))
      case Unchanged(v) => Some(into(v))
      case NotSet => None
    }

    /** `into_wrapped_value`: the same state around the converted payload. */
    function IntoWrappedValue<W(==)>(into: V -> W): (r: ActiveValue<W>)
      ensures r.Set? == Set? && r.Unchanged? == Unchanged? && r.NotSet? == NotSet?
      ensures !NotSet? ==> r.value == into(value)
    {
      match this
      case Set(v) => Set(into(v))
      case Unchanged(v) => Unchanged(into(v))
      case NotSet => NotSet
    }

    /** The state `reset` leaves behind: a present payload becomes `Set`, `NotSet` stays. */
    function Reset(): (r: ActiveValue<V>)
      ensures r.TryAsRef() == TryAsRef()
      ensures !r.Unchanged?
      ensures NotSet? <==> r.NotSet?
    {
      match TryAsRef()
      case Some(v) => Set(v)
      case None => NotSet
    }

    /**
     * The state `set_if_not_equals(x)` leaves behind: an `Unchanged(x)` slot is kept as it is,
     * every other slot (`Set(y)`, `Unchanged(y)` with y != x, `NotSet`) becomes `Set(x)`.
     */
    function SetIfNotEquals(x: V): (r: ActiveValue<V>)
      ensures r.TryAsRef() == Some(x)
      ensures r.Unchanged? <==> this == Unchanged(x)
      ensures r.Set? <==> this != Unchanged(x)
    {
      match this
      case Unchanged(current) =>
        if x == current then this else Set(x)
      case _ => Set(x)
    }

    /**
     * `PartialEq`: two slots are equal when they are in the same state and, for `Set` and
     * `Unchanged`, their payloads are equal.
     */
    function Eq(other: ActiveValue<V>): (b: bool)
      ensures b <==> this == other
      ensures b ==> (Set? <==> other.Set?) && (Unchanged? <==> other.Unchanged?)
    {
      match (this, other)
      case (Set(l), Set(r)) => l == r
      case (Unchanged(l), Unchanged(r)) => l == r
      case (NotSet, NotSet) => true
      case _ => false
    }

    /** `From<ActiveValue<V>> for ActiveValue<Option<V>>`: the same state around `Some(payload)`. */
    function Lift(): (r: ActiveValue<Option<V>>)
      ensures r.Set? == Set? && r.Unchanged? == Unchanged? && r.NotSet? == NotSet?
      ensures !NotSet? ==> r.value == Some(value)
    {
      match this
      case Set(v) => Set(Some(v))
      case Unchanged(v) => Unchanged(Some(v))
      case NotSet => NotSet
    }
  }

  /** `ActiveValue::default()`. */
  function Default<V(==)>(): ActiveValue<V>
  {
    NotSet
  }

  /** `IntoActiveValue` for a plain value (the `impl_into_active_value!` instances): always `Set`. */
  function IntoActiveValue<V(==)>(v: V): (r: ActiveValue<V>)
    ensures r.Set? && r.value == v
  {
    Set(v)
  }

  /** `IntoActiveValue` for `Option<V>`: `Some(v)` is `Set(Some(v))`, `None` is `NotSet` (not `Set(None)`). */
  function OptionIntoActiveValue<V(==)>(o: Option<V>): (r: ActiveValue<Option<V>>)
    ensures o.None? <==> r.NotSet?
    ensures o.Some? ==> r == Set(Some(o.value))
  {
    match o
    case Some(v) => Set(Some(v))
    case None => NotSet
  }

  /** `IntoActiveValue` for `Option<Option<V>>`: the outer `Some` decides between `Set` and `NotSet`. */
  function NestedOptionIntoActiveValue<V(==)>(o: Option<Option<V>>): (r: ActiveValue<Option<V>>)
    ensures o.None? <==> r.NotSet?
    ensures o.Some? ==> r == Set(o.value)
  {
    match o
    case Some(v) => Set(v)
    case None => NotSet
  }

  /** `PartialEq` is exactly structural equality: same state, equal payload. */
  lemma EqIsStructural<V>(a: ActiveValue<V>, b: ActiveValue<V>)
    ensures a.Eq(b) <==> a == b
    ensures a.Eq(b) ==> (a.Set? <==> b.Set?) && (a.Unchanged? <==> b.Unchanged?)
    ensures (a.Set? && b.Unchanged?) ==> !a.Eq(b)
  {
  }

  /** Resetting twice is resetting once. */
  lemma ResetIdempotent<V>(a: ActiveValue<V>)
    ensures a.Reset().Reset() == a.Reset()
  {
  }

  /** `set_if_not_equals` with the same value twice is the same as once. */
  lemma SetIfNotEqualsIdempotent<V>(a: ActiveValue<V>, x: V)
    ensures a.SetIfNotEquals(x).SetIfNotEquals(x) == a.SetIfNotEquals(x)
  {
  }

  /**
   * One mutable field of an active model, for the operations that work through `&mut self`:
   * `take`, `reset` and `set_if_not_equals`.
   */
  class Field<V(==)> {
    var state: ActiveValue<V>

    constructor (initial: ActiveValue<V>)
      ensures state == initial
    {
      state := initial;
    }

    /** `take`: returns the payload and leaves the slot `NotSet` (`std::mem::take`). */
    method Take() returns (r: Option<V>)
      modifies this
      ensures r == old(state).TryAsRef()
      ensures state == NotSet
    {
      var previous := state;
      state := Default();
      match previous
      case Set(v) => r := Some(v);
      case Unchanged(v) => r := Some(v);
      case NotSet => r := None;
    }

    /** `reset`: takes the payload and puts it back as `Set`; `NotSet` stays `NotSet`. */
    method Reset()
      modifies this
      ensures state == old(state).Reset()
    {
      var taken := Take();
      match taken
      case Some(v) => state := Set(v);
      case None => state := NotSet;
    }

    /** `set_if_not_equals`: keeps an equal `Unchanged` payload, otherwise stores `Set(x)`. */
    method SetIfNotEquals(x: V)
      modifies this
      ensures state == old(state).SetIfNotEquals(x)
    {
      match state
      case Unchanged(current) =>
        if x != current {
          state := Set(x);
        }
      case _ =>
        state := Set(x);
    }
  }

  /** Taking twice from a fresh field: the first take yields the payload, the second yields nothing. */
  method TakeTwice<V(==)>(initial: ActiveValue<V>) returns (first: Option<V>, second: Option<V>)
    ensures first == initial.TryAsRef()
    ensures second == None
  {
    var f := new Field(initial);
    first := f.Take();
    second := f.Take();
  }

  /** The doc-test of `set_if_not_equals`: "old" keeps `Unchanged("old")`, "new" gives `Set("new")`. */
  method SetIfNotEqualsScenario() returns (afterOld: ActiveValue<string>, afterNew: ActiveValue<string>)
    ensures afterOld == Unchanged("old")
    ensures afterNew == Set("new")
  {
    var f := new Field(Unchanged("old"));
    f.SetIfNotEquals("old");
    afterOld := f.state;
    f.SetIfNotEquals("new");
    afterNew := f.state;
  }
}
