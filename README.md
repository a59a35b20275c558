# OctoRelay relay driver, modelled in Dafny

This project models the GPIO relay driver of the OctoRelay OctoPrint plugin
(`octoprint_octorelay/driver.py`). A `Relay` has a GPIO pin and an `inverted`
flag. When `inverted` is set the relay is wired "normally closed". The driver
turns the caller's logical state (closed means current flows) into a physical
line level (active or inactive), and back again. Both directions use the same
identity, `xor(inverted, level is ACTIVE) == closed`.

Everything is in `relay.dfy`, module `Driver`:

- `Value` (`Active | Inactive`) stands for gpiod's line value.
- `Xor`, `ReadLogical` (line to logical state), `LevelFor` (logical state to
  line), `Resolve` (how a missing `toggle` argument is filled in) and
  `ToggleLevel` are the pure specification of one call.
- `Replay` applies a sequence of `toggle` calls to a line. The lemmas about it
  prove what repeated calls do.
- `Relay` is a class. It has `const pin` and `const inverted`, which are set
  only by the constructor. It has one mutable field, `line`, the level of GPIO
  line `pin`. Reading `line` stands for `request.get_value`, and assigning it
  stands for `request.set_value`. `Toggle`, `Open` and `Close` may modify only
  `line`.

The GPIO device, and with it every kind of I/O, is replaced by that field. The
line level present when the relay is constructed is a constructor parameter:
the source's constructor does not touch the line.

## Model

| member | source | states |
|---|---|---|
| `Driver.Xor` | octoprint_octorelay/driver.py:11-12 | `xor(left, right)` is true exactly when `left != right` |
| `Driver.ReadLogical` | octoprint_octorelay/driver.py:41-63 | read direction: with normal wiring the relay is closed iff the line is active; with inverted wiring it is closed iff the line is inactive |
| `Driver.LevelFor` | octoprint_octorelay/driver.py:74-77 | write direction: the line is driven ACTIVE iff `inverted XOR desired`. Reading that level back gives `desired` (round trip for all four combinations), and it is the only level that does |
| `Driver.Resolve` | octoprint_octorelay/driver.py:71-72 | an explicit argument is used as given; a missing one becomes the negation of the current logical state |
| `Driver.ToggleLevel` | octoprint_octorelay/driver.py:71-87 | after `toggle(d)` the line shows `d`; after `toggle()` it shows the negation of the old logical state, and the level has changed |
| `Driver.ReplayAppend` | octoprint_octorelay/driver.py:65-88 | one more toggle after a sequence of toggles acts on the level that sequence left behind |
| `Driver.ReplayLast` | octoprint_octorelay/driver.py:74-88 | whatever calls came before, a last call `toggle(d)` leaves the relay in logical state `d` |
| `Driver.ReplayFlips` | octoprint_octorelay/driver.py:71-88 | parameterless toggles alternate the state: an even number (two in particular) restores the original line level and logical state, and an odd number flips both |
| `Driver.Relay.constructor` | octoprint_octorelay/driver.py:15-18 | `pin` and `inverted` take the given values; being `const`, no later operation can change them |
| `Driver.Relay.IsClosed` | octoprint_octorelay/driver.py:31-63 | returns `inverted XOR (line is ACTIVE)`, which is the relay's logical state, and changes nothing |
| `Driver.Relay.Toggle` | octoprint_octorelay/driver.py:65-88 | changes only the line. It returns the resolved desired state, drives the line to `LevelFor(inverted, that state)`, and a following `IsClosed` returns that state |
| `Driver.Relay.Close` | octoprint_octorelay/driver.py:23-25 | is `toggle(True)`: afterwards the relay is closed |
| `Driver.Relay.Open` | octoprint_octorelay/driver.py:27-29 | is `toggle(False)`: afterwards the relay is open |

## Left out

- The gpiod calls themselves (`gpiod.request_lines`, the `/dev/gpiochip4` path, consumer strings, the `LineSettings` line directions): foreign library and device I/O, replaced by the `line` field.
- The scoped `with` acquire and release of the line request: resource handling. The model keeps only its consequence, that a `Relay` holds no handle, just `pin`, `inverted` and the line level.
- Exceptions raised inside gpiod when the device cannot be opened or the line cannot be claimed: they come from the library, and the driver never catches them, so every modelled operation succeeds.
- Logging and `print` calls, and the `__repr__` string formatting: output only.
- The commented-out alternative implementations inside `is_closed`: they are not executed.
- The read-then-write race in parameterless `toggle` when two callers use the same pin at once: concurrency is not modelled. `Replay` assumes nothing else drives the line between calls.
- An external-command backend that parses textual status output: no such code is part of this model's source, so its parsing and fail-safe default are not modelled.
- `ui/tsup.config.ts`: bundler configuration with no logic.
