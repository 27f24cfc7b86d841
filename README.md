# Birth-chart kernel

A Dafny model of the computational kernel of a small birth-chart web
application. Given a name, a birth date, time and place, the application looks
up the place's coordinates and timezone, asks an ephemeris library for the
zodiac sign of ten bodies and for the Sun's and Moon's ecliptic longitudes,
names the Moon's phase, and optionally asks a text-generation service to
interpret the chart. Everything around the kernel is network, library or web
plumbing; what is modelled here is the deterministic logic in between:

- `MoonPhase` (`moon_phase.dfy`): the Moon–Sun elongation `(moon_lon - sun_lon) % 360`
  with Python's sign-of-divisor remainder, and the seven-branch if/elif chain
  that names the phase. The chain's arcs are proved to partition the real
  line, to agree with an independent "divide by 45, cap at 6" reading, to be
  monotone in the angle, and to give the last name a 90-degree arc within one
  turn. "Waxing Crescent" is never produced.
- `UtcOffset` (`utc_offset.dfy`): Python's forgiving slices `s[:3]` and `s[3:]`,
  the colon insertion that turns the `%z` string `±HHMM` into `±HH:MM`, the
  `%z` format for whole-minute offsets, and a reference reader of the
  `±HH:MM` form with a round trip: the colon string built from `%z` reads
  back as the datetime's own offset in minutes.
- `Chart` (`chart.dfy`): a Python dict as an insertion-ordered list of entries,
  `d[k] = v` and the dict comprehension `{p: sign(p) for p in planets}`, and the
  record `generate_chart` returns. The sign lookup of the chart library is a
  function parameter (an oracle); so are the two longitudes and the
  illuminated fraction.
- `Prompt` (`prompt.dfy`): `"\n".join`, the prompt string built for the text
  generator, and a split-after-join round trip showing that, when the name and
  every sign contain no newline, the prompt's lines are exactly the header,
  `Sun: <sign>` … `Pluto: <sign>` in order, the phase line, a blank line and
  the fixed instruction. A name with a newline in it adds lines to the prompt.
- `Wrappers` (`wrappers.dfy`): an `Option` type.

The phase names follow the code's if/elif chain exactly: seven names, with
0–45 "New Moon", 45–90 "First Quarter", 90–135 "Waxing Gibbous", 135–180
"Full Moon", 180–225 "Waning Gibbous", 225–270 "Last Quarter", and everything
from 270 up "Waning Crescent". There is no "Waxing Crescent".

## Model

| member | source | states |
|---|---|---|
| `MoonPhase.Mod360` | chart_engine.py:34 | the wrapped value lies in [0, 360), equals its input when that is already in [0, 360), and differs from the input by a whole number of turns |
| `MoonPhase.Mod360Unique` | chart_engine.py:34 | the wrapped value is the only value in [0, 360) a whole number of turns away from the input |
| `MoonPhase.Mod360Periodic` | chart_engine.py:34 | adding whole turns to the difference leaves its wrapped value unchanged |
| `MoonPhase.Elongation` | chart_engine.py:31-36 | the phase angle `(moon_lon - sun_lon) % 360` lies in [0, 360) and is the raw difference whenever that is already in [0, 360) |
| `MoonPhase.ElongationTurnInvariant` | chart_engine.py:34 | turning the Sun or the Moon by whole circles leaves the phase angle unchanged |
| `MoonPhase.Classify` | chart_engine.py:69-82 | the name chosen by the if/elif chain is a phase whose half-open arc holds the angle: 45 degrees per step, the first arc open below, the last open above |
| `MoonPhase.ArcsDisjoint` | chart_engine.py:69-82 | no angle lies in two arcs |
| `MoonPhase.ClassifyIffInArc` | chart_engine.py:69-82 | the chain names phase p exactly when the angle lies in p's arc, so the chain is total and its branches do not overlap |
| `MoonPhase.ClassifyMatchesDivision` | chart_engine.py:69-82 | the chain agrees with the reading "floor of angle / 45, capped at the seventh name, and the first name for negative angles" |
| `MoonPhase.ClassifyMonotone` | chart_engine.py:69-82 | a larger angle never gets a name earlier in the chain |
| `MoonPhase.NameInjective` | chart_engine.py:69-82 | the seven phase strings are distinct and are listed in chain order |
| `MoonPhase.ClassifyNames` | chart_engine.py:69-82 | every angle yields one of the seven strings, never "Waxing Crescent" |
| `MoonPhase.ArcWidths` | chart_engine.py:79-82 | within [0, 360) "Waning Crescent" covers exactly [270, 360) and each other name a 45-degree arc starting at 45 times its position |
| `MoonPhase.BoundaryScenarios` | chart_engine.py:69-82 | the lower bounds are inclusive: 0 is "New Moon", 45 "First Quarter", 90 "Waxing Gibbous", 180 "Waning Gibbous", 270 and 359.9 "Waning Crescent" |
| `UtcOffset.Prefix` | chart_engine.py:50 | `s[:n]` has length min(len(s), n) and is a prefix of s |
| `UtcOffset.Suffix` | chart_engine.py:50 | `s[:n] + s[n:]` is s |
| `UtcOffset.InsertColon` | chart_engine.py:49-50 | the reformatted offset is one character longer, has the colon at index 3 (at the end for inputs shorter than 3), and deleting that colon gives back the raw string |
| `UtcOffset.InsertColonShape` | chart_engine.py:49-50 | the raw string is a sign and four digits exactly when the reformatted one is a sign, two digits, a colon and two digits |
| `UtcOffset.StrftimeZ` | chart_engine.py:49 | `%z` of a whole-minute offset under a day is a sign and four digits, the sign `-` exactly for negative offsets |
| `UtcOffset.InsertColonMatchesFields` | chart_engine.py:49-50 | slicing the `%z` string gives the same text as building `±HH:MM` from the offset's hour and minute fields |
| `UtcOffset.ParseColonOffset` | chart_engine.py:46-50 | a reference reader of the `±HH:MM` form named in the comment at line 46: a string is read as an offset exactly when it has that shape |
| `UtcOffset.OffsetRoundTrip` | chart_engine.py:49-50 | the `±HH:MM` string built from `%z` reads back, through the reference reader, as the datetime's own offset in minutes |
| `Chart.Get` | chart_engine.py:61 | lookup by key, through which `Put` and `Comprehend` state what the dict built at line 61 holds: it finds a value exactly when k is a key |
| `Chart.Put` | chart_engine.py:61 | `d[k] = v` keeps keys distinct, makes k map to v, leaves every other key's value alone, keeps an existing key's position and appends a new key |
| `Chart.Comprehend` | chart_engine.py:61 | the comprehension's keys are distinct and are exactly the items, each item maps to its image, and distinct items keep their order as keys |
| `Chart.ComprehendAt` | chart_engine.py:61 | for distinct items the i-th entry is the i-th item paired with its image |
| `Chart.BodiesDistinct` | chart_engine.py:57-60 | the ten bodies are pairwise distinct |
| `Chart.GenerateChart` | chart_engine.py:57-90 | the chart lists Sun … Pluto in that order with the sign lookup's value for each; the name is passed through; the angle is the wrapped elongation `(moon_lon - sun_lon) % 360` for every input, in [0, 360); the phase is one of the seven names, the name of the one arc holding the angle, and "Waning Crescent" exactly from 270 up; the fraction is passed through |
| `Prompt.Join` | chart_engine.py:97 | `"\n".join(lines)`: a non-empty join starts with its first piece; `JoinAppend` and `SplitJoin` state how it splits over concatenation and that splitting undoes it |
| `Prompt.JoinAppend` | chart_engine.py:97 | joining two non-empty lists puts one separator between their joins |
| `Prompt.SplitPlain` | chart_engine.py:97 | a string without the separator splits into itself |
| `Prompt.SplitFirst` | chart_engine.py:97 | a separator-free piece followed by the separator splits off as the first part |
| `Prompt.SplitJoin` | chart_engine.py:97 | splitting on a character undoes joining with it when no piece contains it |
| `Prompt.ChartLines` | chart_engine.py:94 | one `"pl: sg"` line per chart entry, in chart order |
| `Prompt.BuildPrompt` | chart_engine.py:95-100 | the prompt starts with `"Name: " + name + "\nBirth Chart:\n"` and ends with `"\nMoon Phase: " + phase + "\n\n"` and the fixed instruction |
| `Prompt.PromptIsJoinedLines` | chart_engine.py:94-100 | for a non-empty chart the prompt is its lines joined by newlines: name line, "Birth Chart:", the chart lines, the phase line, a blank line, the instruction |
| `Prompt.PromptSplitsIntoLines` | chart_engine.py:94-100 | when name, phase and entries are single lines, splitting the prompt on newlines gives back exactly those lines |
| `Prompt.BodyLinesOfPrompt` | chart_engine.py:94-100 | when the name and every sign contain no newline and the phase is one of the seven names, a chart listing the ten bodies with their signs yields a fifteen-line prompt whose lines 2–11 are `Sun: <sign>` … `Pluto: <sign>` |
| `Prompt.GeneratedPromptLines` | chart_engine.py:57-100 | when the name and every sign contain no newline, the prompt for a record from `generate_chart` is fifteen lines: name, "Birth Chart:", `Sun: <sign>` through `Pluto: <sign>` in order, the phase line, a blank line and the instruction |

## Left out

- Geocoding and timezone lookup (`get_geo_and_tz`, chart_engine.py:17-29): network calls to a geocoder and a timezone web service; the model starts from their results.
- The ephemeris and natal-chart libraries (`swe.set_ephe_path`, `swe.calc_ut`, `swe.julday`, the chart library's `Chart`, `Datetime`, `GeoPos`): foreign code. The sign of a body is a function parameter, the two longitudes are real parameters, and the Julian day is not modelled.
- Date and time parsing and localisation (`strptime`, `localize`, `strftime` of date and time): they rest on library timezone data. Only the `%z` format is modelled, by `UtcOffset.StrftimeZ`.
- UtcOffset.StrftimeZ: covers offsets of whole minutes only; an offset with seconds gives `%z` six digits, and `InsertColon` would then yield `±HH:MMSS`.
- MoonPhase.Mod360: works on exact reals, not binary floats; float rounding (a tiny negative difference wrapping to exactly 360.0) is not captured.
- The illuminated fraction `(1 - cos(radians(diff))) / 2`: floating-point trigonometry; it enters `GenerateChart` as a parameter and is passed through.
- Chart.GenerateChart: `round(angle, 2)` and `round(frac, 3)` (chart_engine.py:87-88) are not applied; the record holds the unrounded angle and fraction. The bound [0, 360), the agreement between the name and the arc holding the angle, and "Waning Crescent exactly from 270 up" all hold for the unrounded angle only: the source reports 270.0 with "Last Quarter" for an angle of 269.996, and 360.0 for 359.996.
- Chart.GenerateChart: the sign lookup `chart.get(p).sign` is a total function parameter, so the model assumes it succeeds for all ten bodies. A lookup that raised, or returned `None` so that `.sign` raised, would abort `generate_chart`, and the caller would show an error message instead of a chart; that failure path is not modelled.
- UtcOffset.ParseColonOffset: a reference reader of `±HH:MM` used to state the round trip; the chart library's own parsing of the offset string is not modelled.
- Prompt.GeneratedPromptLines: the fifteen-line reading holds only for a name and signs without newlines; nothing on the way from the web form to the prompt rejects a newline in the name, and for such a name ("A\nB") the prompt has more lines, whose split is not characterised here beyond `PromptIsJoinedLines`.
- The text-generation request and the global `openai.api_key` assignment (chart_engine.py:93, 101-106): a remote API and shared library state; the model stops at the prompt string.
- app.py: web routing, form reading, the environment-variable check for the API key, and the catch-all conversion of errors to a message; I/O plumbing with no logic of its own.
