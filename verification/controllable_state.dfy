/**
 * `useControllableState`: a value that is either controlled by the parent
 * (a defined `controlledValue` prop) or kept internally, seeded by
 * `defaultValue`. Setting it resolves an updater against the exposed value,
 * stores it only when uncontrolled, and always reports it to
 * `onControlledChange`.
 */
module ControllableState {
  import opened Wrappers

  /** `React.SetStateAction<T>`: a plain value or an updater of the current one. */
  datatype SetStateAction<!T> = Plain(value: T) | Updater(apply: T -> T)

  /** The value `setValue` settles on when the exposed value is `current`. */
  function Resolve<T>(action: SetStateAction<T>, current: T): (r: T)
    ensures action.Plain? ==> r == action.value
    ensures action.Updater? ==> r == action.apply(current)
  {
    match action
    case Plain(v) => v
    case Updater(f) => f(current)
  }

  class ControllableState<T> {
    /** The hook's internal `useState`. */
    var uncontrolledValue: T
    /** The `controlledValue` prop; `None` is `undefined`. */
    var controlledValue: Option<T>
    /** Every value handed to `onControlledChange`, oldest first. */
    var notified: seq<T>

    /** First render: the internal state starts at `defaultValue`. */
    constructor (defaultValue: T, controlledValue: Option<T>)
      ensures uncontrolledValue == defaultValue
      ensures this.controlledValue == controlledValue
      ensures notified == []
    {
      uncontrolledValue := defaultValue;
      this.controlledValue := controlledValue;
      notified := [];
    }

    predicate IsControlled()
      reads this
    {
      controlledValue.Some?
    }

    /** The exposed value: the prop whenever it is defined, else the internal state. */
    function Value(): T
      reads this
    {
      if IsControlled() then controlledValue.value else uncontrolledValue
    }

    /** A re-render in which the parent passes a different `controlledValue`. */
    method SetControlledValue(v: Option<T>)
      modifies this
      ensures controlledValue == v
      ensures uncontrolledValue == old(uncontrolledValue) && notified == old(notified)
    {
      controlledValue := v;
    }

    /** `setValue`. */
    method SetValue(action: SetStateAction<T>)
      modifies this
      ensures controlledValue == old(controlledValue)
      ensures notified == old(notified) + [Resolve(action, old(Value()))]
      ensures uncontrolledValue == if old(IsControlled()) then old(uncontrolledValue) else Resolve(action, old(Value()))
      // controlled: the exposed value waits for the parent; uncontrolled: it is the resolved value
      ensures IsControlled() ==> Value() == old(Value())
      ensures !IsControlled() ==> Value() == Resolve(action, old(Value()))
    {
      var resolvedValue := Resolve(action, Value());
      if IsControlled() {
        notified := notified + [resolvedValue];
      } else {
        uncontrolledValue := resolvedValue;
        notified := notified + [resolvedValue];
      }
    }
  }
}
