/**
 * The Bluetooth media player as far as the listener uses it, the `play_pause`
 * closure each successful cycle builds, and the GPIO button it is bound to.
 *
 * `play_pause` is defined inside `Listener.run` and reads `run`'s local
 * variables `handle` and `status` when it is CALLED, not when it is defined.
 * Those two variables are the fields of a `Scope` object, shared by the loop
 * (which assigns them) and by every closure bound to the button (which reads them).
 */
module Player {
  import opened Base

  /** A D-Bus object for the paired device's `player0`. */
  datatype Handle = Handle(path: string)

  /** What a button press does to the player. */
  datatype Toggle = Pause | Play | NoOp

  /** One call a press issues on a player handle. */
  datatype Call = Call(target: Handle, command: Toggle)

  /** What one press of the button does: the calls it issues, or a `NameError` for a variable not yet assigned. */
  datatype PressResult = Issued(calls: seq<Call>) | Unassigned

  /** The toggle decision: a playing player is paused, a paused one is played, any other status is left alone. */
  function PressEffect(status: string): (t: Toggle)
    ensures t == Pause <==> status == "playing"
    ensures t == Play <==> status == "paused"
    ensures t == NoOp <==> status != "playing" && status != "paused"
  {
    if status == "playing" then Pause
    else if status == "paused" then Play
    else NoOp
  }

  /** The body of `play_pause` as written: two independent tests on the status, each calling the handle. */
  function Fire(handle: Handle, status: string): (calls: seq<Call>)
    ensures |calls| <= 1
    ensures forall i :: 0 <= i < |calls| ==> calls[i].target == handle && calls[i].command != NoOp
  {
    (if status == "playing" then [Call(handle, Pause)] else [])
    + (if status == "paused" then [Call(handle, Play)] else [])
  }

  /** The two tests of the closure never both fire: a call issues exactly the toggle decision. */
  lemma FireIsPressEffect(handle: Handle, status: string)
    ensures Fire(handle, status) == if PressEffect(status) == NoOp then [] else [Call(handle, PressEffect(status))]
  {
  }

  /**
   * Calling `play_pause` with the current values of its two free variables.
   * `status` is read first; `handle` is read only when the status asks for a call.
   */
  function Press(handle: Option<Handle>, status: Option<string>): (r: PressResult)
    ensures r == Unassigned <==> status.None? || (handle.None? && PressEffect(status.value) != NoOp)
    ensures r.Issued? ==> r.calls == if PressEffect(status.value) == NoOp then [] else [Call(handle.value, PressEffect(status.value))]
  {
    match status
    case None => Unassigned
    case Some(st) =>
      if st != "playing" && st != "paused" then Issued([])
      else if handle.None? then Unassigned
      else
        FireIsPressEffect(handle.value, st);
        Issued(Fire(handle.value, st))
  }

  /** The local variables of `Listener.run` that `play_pause` closes over; `None` while unassigned. */
  class Scope {
    var handle: Option<Handle>
    var status: Option<string>

    constructor ()
      ensures handle == None && status == None
    {
      handle := None;
      status := None;
    }
  }

  /** `Button(2)` with its `when_pressed` callback, identified by the scope the callback reads. */
  class Button {
    var whenPressed: Option<Scope>

    constructor ()
      ensures whenPressed == None
    {
      whenPressed := None;
    }

    /** `button.when_pressed = play_pause`: the new closure replaces the previous one. */
    method Bind(scope: Scope)
      modifies this
      ensures whenPressed == Some(scope)
    {
      whenPressed := Some(scope);
    }

    /** One press: nothing while unbound, else the bound closure run on its variables' current values. */
    method Pressed() returns (r: PressResult)
      ensures whenPressed.None? ==> r == Issued([])
      ensures whenPressed.Some? ==> r == Press(whenPressed.value.handle, whenPressed.value.status)
      ensures whenPressed.Some? && whenPressed.value.handle.Some? && whenPressed.value.status.Some? ==>
        r == Issued(Fire(whenPressed.value.handle.value, whenPressed.value.status.value))
    {
      match whenPressed {
        case None =>
          r := Issued([]);
        case Some(scope) =>
          var status := scope.status;
          if status.None? {
            r := Unassigned;
          } else if status.value != "playing" && status.value != "paused" {
            r := Issued([]);
          } else if scope.handle.None? {
            r := Unassigned;
          } else {
            r := Issued(Fire(scope.handle.value, status.value));
          }
      }
    }
  }
}
