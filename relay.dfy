/** A model of the OctoRelay GPIO driver: one relay wired to one digital line.

    The caller speaks of a logical state (closed means current flows through
    the relay); the hardware knows only the level of the line (active or
    inactive). A relay wired "normally closed" is `inverted`: an active line
    then means an open relay. Both directions of the translation use one
    identity, `Xor(inverted, level is active) == closed`.

    The GPIO character device is replaced by the field `line` of `Relay`:
    reading it stands for `request.get_value`, assigning it for
    `request.set_value`.
 */
module Driver {

  datatype Option<+T> = None | Some(value: T)

  /** The level of a GPIO line, as the gpiod library reports and drives it. */
  datatype Value = Active | Inactive

  /** Boolean exclusive or; the source writes it as identity inequality of
      two booleans. */
  function Xor(left: bool, right: bool): (r: bool)
    ensures r <==> left != right
  {
    if left then !right else right
  }

  /** Read direction: the logical state shown by a line at `level`. */
  function ReadLogical(inverted: bool, level: Value): (closed: bool)
    ensures !inverted ==> (closed <==> level == Active)
    ensures inverted ==> (closed <==> level == Inactive)
  {
    Xor(inverted, level == Active)
  }

  /** Write direction: the level that makes the relay show `desired`. */
  function LevelFor(inverted: bool, desired: bool): (v: Value)
    ensures v == Active <==> Xor(inverted, desired)
    ensures ReadLogical(inverted, v) == desired
    ensures forall w :: ReadLogical(inverted, w) == desired ==> w == v
  {
    if Xor(inverted, desired) then Active else Inactive
  }

  /** The state `toggle` aims for: the argument if one is given, otherwise
      the negation of the current logical state. */
  function Resolve(desired: Option<bool>, current: bool): (d: bool)
    ensures desired.Some? ==> d == desired.value
    ensures desired.None? ==> d != current
  {
    match desired
    case Some(b) => b
    case None => !current
  }

  /** The level of the line after `toggle(desired)` on a line at `line`. */
  function ToggleLevel(inverted: bool, line: Value, desired: Option<bool>): (r: Value)
    ensures desired.Some? ==> ReadLogical(inverted, r) == desired.value
    ensures desired.None? ==> ReadLogical(inverted, r) == !ReadLogical(inverted, line)
    ensures desired.None? ==> r != line
  {
    LevelFor(inverted, Resolve(desired, ReadLogical(inverted, line)))
  }

  /** The level of the line after the toggle calls `calls`, in order, with
      nothing else driving the line in between. */
  function Replay(inverted: bool, line: Value, calls: seq<Option<bool>>): Value
    decreases |calls|
  {
    if calls == [] then line
    else Replay(inverted, ToggleLevel(inverted, line, calls[0]), calls[1..])
  }

  /** One more call after a sequence of calls acts on the level they left. */
  lemma {:induction false} ReplayAppend(inverted: bool, line: Value, calls: seq<Option<bool>>, c: Option<bool>)
    ensures Replay(inverted, line, calls + [c]) == ToggleLevel(inverted, Replay(inverted, line, calls), c)
    decreases |calls|
  {
    if calls == [] {
      assert [] + [c] == [c];
      assert [c][1..] == [];
    } else {
      var next := ToggleLevel(inverted, line, calls[0]);
      assert (calls + [c])[0] == calls[0];
      assert (calls + [c])[1..] == calls[1..] + [c];
      ReplayAppend(inverted, next, calls[1..], c);
    }
  }

  /** Whatever came before, a call with an explicit state leaves the relay in
      that state. */
  lemma ReplayLast(inverted: bool, line: Value, calls: seq<Option<bool>>)
    requires |calls| > 0 && calls[|calls| - 1].Some?
    ensures ReadLogical(inverted, Replay(inverted, line, calls)) == calls[|calls| - 1].value
  {
    var prefix := calls[..|calls| - 1];
    assert calls == prefix + [calls[|calls| - 1]];
    ReplayAppend(inverted, line, prefix, calls[|calls| - 1]);
  }

  /** Parameterless toggles alternate the state: an even number of them
      restores the original level and logical state, an odd number flips
      both. */
  lemma {:induction false} ReplayFlips(inverted: bool, line: Value, calls: seq<Option<bool>>)
    requires forall i :: 0 <= i < |calls| ==> calls[i] == None
    ensures |calls| % 2 == 0 ==> Replay(inverted, line, calls) == line
    ensures |calls| % 2 == 1 ==> Replay(inverted, line, calls) != line
    ensures ReadLogical(inverted, Replay(inverted, line, calls))
            == (ReadLogical(inverted, line) != (|calls| % 2 == 1))
    decreases |calls|
  {
    if calls != [] {
      var next := ToggleLevel(inverted, line, None);
      assert calls[0] == None;
      ReplayFlips(inverted, next, calls[1..]);
    }
  }

  /** The relay: `pin` and `inverted` are fixed at construction; `line` is
      the level of GPIO line `pin`, the only state any operation changes. */
  class Relay {
    const pin: int
    const inverted: bool
    var line: Value

    /** The logical state the line currently shows. */
    function Closed(): bool
      reads this
    {
      ReadLogical(inverted, line)
    }

    /** `initial` is whatever level the line holds when the relay is made;
        the constructor does not drive it. */
    constructor (pin: int, inverted: bool, initial: Value)
      ensures this.pin == pin && this.inverted == inverted
      ensures line == initial
    {
      this.pin := pin;
      this.inverted := inverted;
      line := initial;
    }

    /** Reads the line and returns the logical state; changes nothing. */
    method IsClosed() returns (closed: bool)
      ensures closed == Closed()
      ensures closed <==> Xor(inverted, line == Active)
    {
      var pinState := line == Active;
      closed := Xor(inverted, pinState);
    }

    /** Drives the line for `desired`, or for the opposite of the current
        state when no state is given, and returns the new logical state. */
    method Toggle(desired: Option<bool>) returns (newState: bool)
      modifies this`line
      ensures newState == Resolve(desired, old(Closed()))
      ensures line == LevelFor(inverted, newState)
      ensures line == ToggleLevel(inverted, old(line), desired)
      ensures Closed() == newState
    {
      var d: bool;
      if desired.None? {
        var current := IsClosed();
        d := !current;
      } else {
        d := desired.value;
      }
      var value: Value;
      if Xor(inverted, d) {
        value := Active;
      } else {
        value := Inactive;
      }
      line := value;
      newState := d;
    }

    /** Lets current flow through the relay. */
    method Close()
      modifies this`line
      ensures line == LevelFor(inverted, true)
      ensures Closed()
    {
      var _ := Toggle(Some(true));
    }

    /** Stops current flowing through the relay. */
    method Open()
      modifies this`line
      ensures line == LevelFor(inverted, false)
      ensures !Closed()
    {
      var _ := Toggle(Some(false));
    }
  }
}
