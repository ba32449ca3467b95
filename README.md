# pihub trigger registry

A model of the trigger part of the pihub home-automation node: the fixed map
`TRIGGERS` from trigger name to output pin (only `"sofa"` on BCM pin 23), the
in-memory `state` dictionary holding each trigger's level, the level driven on
each pin through `GPIO.output`, and the REST resource `/triggers/<trigger>`
whose `get` reports a trigger and whose `post` switches it.

Two modules:

- `Text` (`text.dfy`): the `strip().lower()` normalisation the resource applies
  to names and actions, over ASCII. `Strip` is Python's `str.strip()` with the
  whitespace set of `str.isspace()` in the ASCII range (codes 9–13 and 28–32);
  `Lower` maps `A`–`Z` to `a`–`z`. Lemmas show that stripping removes exactly
  the surrounding whitespace, that the two steps commute, and that
  normalisation is idempotent and ignores padding and case.
- `Site` (`site.dfy`): the trigger registry. `GetResponse` is `Trigger.get` as a
  function of the `state` map; `PostOutcome` is `Trigger.post` as a function of
  the `state` and pin maps giving the answer and the new maps. The class
  `Registry` holds them as fields (`state`; `pins`, standing for the hardware
  levels written by `GPIO.output`; and `outputs`, the pins `GPIO.setup` has
  made outputs, without which `GPIO.output` raises); its methods `Setup`, `Clean` and
  `Post` update them in place, and `Post` is proved to do what `PostOutcome`
  says. Answers are a `Response` of a body and an HTTP status.

Behaviour kept as the code has it, including where it is surprising:

- `post` does not normalise the trigger name (the normalising line is
  commented out at site/index.py:83): `" Sofa"` is a 404 for POST but found by
  GET.
- `post` accepts every action: the trigger goes HIGH exactly when the trimmed,
  lower-cased action is `"on"` and LOW for anything else, and the answer echoes
  the normalised action, so posting `"bogus"` answers `"bogus"` while a later
  GET says `"off"`. No 400 is given for an unknown action word.
- `post` records the new level before it writes the pin. When the pin was
  never set up as an output the write raises and the framework answers 500,
  but the level stays recorded although the pin did not move.
- Until `setup()` has run, `state` is empty and a GET of `"sofa"` raises a
  `KeyError`, answered by the framework with a 500; the model gives
  `InternalError` with status 500.
- `clean()` raises at its first write when the pin was never set up, and
  then does not release the pins.
- The two not-found messages differ in spelling (`"trigger unkonwn or missing"`
  for GET, `"trigger unkonw or missing"` for POST) and are kept as written.

## Model

| member | source | states |
|---|---|---|
| `Text.SkipSpace` | site/index.py:68 | the first index from the start point that is not whitespace, everything skipped being whitespace |
| `Text.SkipSpaceBack` | site/index.py:68 | the end after dropping trailing whitespace down to a lower bound, everything dropped being whitespace |
| `Text.Strip` | site/index.py:68 | the result has no whitespace at either end and is no longer than the input |
| `Text.StripSplit` | site/index.py:68 | the input is a whitespace run, then its stripped form, then a whitespace run |
| `Text.StripOf` | site/index.py:68 | any whitespace padding around a string with non-blank ends is exactly what `strip()` removes |
| `Text.StripIgnoresPadding` | site/index.py:68 | adding whitespace on either side never changes the stripped form |
| `Text.Lower` | site/index.py:68 | same length, every character lower-cased one by one, no upper-case letter left |
| `Text.StripLowerCommute` | site/index.py:68 | stripping then lower-casing equals lower-casing then stripping |
| `Text.Normalize` | site/index.py:84 | the normal form has no edge whitespace, no upper-case letter and is no longer than the input |
| `Text.NormalizeIdempotent` | site/index.py:68 | normalising a normal form gives it back |
| `Text.NormalizeIgnoresPadding` | site/index.py:68 | surrounding whitespace does not change the normal form |
| `Text.NormalizeIgnoresCase` | site/index.py:68 | lower-casing first does not change the normal form |
| `Text.NormalizeFixed` | site/index.py:68 | a trimmed lower-case string is its own normal form |
| `Site.SofaNormal` | site/index.py:11-14 | the configured name `"sofa"` is in normal form, so GET finds it |
| `Site.LevelName` | site/index.py:75 | the reported word is `"on"` exactly for HIGH and `"off"` otherwise |
| `Site.GetResponse` | site/index.py:67-79 | 404 with the not-found message exactly when the normalised name is not configured; 500 when it is configured but not yet in `state`; otherwise 200 with the normalised name, its pin and `"on"` exactly when its level is HIGH |
| `Site.PostOutcome` | site/index.py:81-98 | 400 exactly when `action` is missing, whatever the name; 404 exactly when the raw name is not configured; both leave the maps unchanged; otherwise the trigger's level is recorded HIGH exactly when the normalised action is `"on"` and no other entry changes; then 200 echoing the name, its pin and the normalised action with the pin driven to that level and no other pin changed when the pin is set up as an output, and 500 with every pin unchanged when it is not |
| `Site.Registry.constructor` | site/index.py:45 | the registry starts with an empty `state`, no pin set up and no pin driven |
| `Site.Registry.Setup` | site/index.py:46-53 | makes pin 23 an output, records `"sofa"` as LOW and drives pin 23 LOW, nothing else; afterwards `state` holds exactly the configured names, every pin agrees with its level and GET of `"sofa"` answers 200 with pin 23 and `"off"` |
| `Site.Registry.Clean` | site/index.py:55-58 | runs to its end exactly when pin 23 is set up, and then drives it LOW and releases every pin, so every configured pin is low; otherwise no pin changes; `state` is untouched either way |
| `Site.Registry.Post` | site/index.py:81-98 | the answer and the new `state` and pin maps are those of `PostOutcome`, the set-up pins are unchanged; pins that agreed with their levels still do unless the answer is 500 |
| `Site.Start` | site/index.py:46-53 | the service started with `setup()` first: a fresh registry holding `"sofa"` LOW with pin 23 set up and consistent, and GET of `"sofa"` answers 200 with pin 23 and `"off"` |
| `Site.UnsetupService` | site/index.py:213-224 | started as the entry point starts it, GET of `"sofa"` is a 500, and a POST of `"on"` is a 500 that records HIGH while pin 23 is never driven, so the levels and the pins disagree and a later GET reports `"on"` |
| `Site.GetAfterSetup` | site/index.py:53-75 | once `"sofa"` is recorded LOW, GET of any name normalising to `"sofa"` answers 200 with pin 23 and `"off"` |
| `Site.GetNormalises` | site/index.py:68-76 | GET answers a name and its normal form alike |
| `Site.GetIgnoresPaddingAndCase` | site/index.py:68 | GET answers a whitespace-padded name as the lower-cased name |
| `Site.GetSofaSpelling` | site/index.py:68-76 | every capitalisation of `"sofa"` with any whitespace around it is answered as `"sofa"` |
| `Site.GetMixedCase` | site/index.py:68-76 | GET of `"  SoFa "` answers as GET of `"sofa"` |
| `Site.GetRawName` | site/index.py:68-79 | GET of `" Sofa"` answers 200 with `"sofa"`, pin 23 and its level once the trigger is recorded |
| `Site.PostWithoutAction` | site/index.py:62-86 | a POST without `action` is a 400 for every name, configured or not, and changes nothing |
| `Site.PostRawName` | site/index.py:83-87 | POST to `" Sofa"` is a 404 with the POST message and changes nothing, because the name is not normalised |
| `Site.PostKeepsConsistent` | site/index.py:89-90 | if every recorded level agreed with its pin before a POST not answered with 500, it still does after |
| `Site.PostThenGet` | site/index.py:89-98 | after POSTing an action that normalises to `"on"` or `"off"` a following GET reports exactly that word, and the POST answers that word when the pin is set up |
| `Site.PostBogusThenGet` | site/index.py:89-95 | with the pin set up, POSTing `"bogus"` answers `"bogus"` but a following GET reports `"off"` |
| `Site.PostIdempotent` | site/index.py:89-90 | repeating a POST with the same name and action changes nothing further |
| `Site.PostActionNormalised` | site/index.py:84-89 | POSTing an action and POSTing its normal form have the same outcome |

## Findings

| source | as written | input that shows it | evidently intended | confidence | as-written member | corrected member |
|---|---|---|---|---|---|---|
| site/index.py:213-224 | the entry point starts the server without calling `setup()` (and never registers `clean()` for exit), so pin 23 is never made an output | `GET /triggers/sofa` answers 500; `POST /triggers/sofa` with `action=on` answers 500 yet records HIGH, after which GET reports `"on"` while pin 23 was never driven | call `setup()` before serving, so GET reports `"off"` and every POST drives the pin it records | high, not executed | `Site.UnsetupService` | `Site.Start` |

## Left out

- Non-ASCII text: `str.strip()` also removes Unicode whitespace such as U+0085 and U+00A0, and `str.lower()` also lower-cases non-ASCII letters (one of them, the Kelvin sign, to ASCII `k`); the model keeps every non-ASCII character as it is.
- The request parser's internals: the model receives `action` as present or missing; conversion of a non-string JSON value through `str`, and the JSON shape of the 400 body (the help text nested under the field name), are not modelled; the body is the help text alone.
- GPIO library calls (`setmode`, `setup`, `cleanup`) are reduced to the set of pins made outputs; a write to such a pin always takes the written level, and a write to any other pin raises.
- Site.Registry.Post: requests are modelled as atomic. The service runs with `threaded=True` (site/index.py:224), so two POSTs can interleave between recording the level (line 89) and writing the pin (line 90) and leave them disagreeing; the consistency promised by `Registry.Post` and `PostKeepsConsistent` assumes POSTs do not overlap.
- Logging calls.
- The error handler at site/index.py:100-114: its blueprint is never registered and it refers to names that do not exist.
- The index page, the sensor reading and broker publish cycle, the dew-point formula (floating point and `math.log`), the sensor register configuration sequence, the periodic scheduler and the threaded HTTP server: I/O, clocks, floating point and concurrency outside the trigger registry.
