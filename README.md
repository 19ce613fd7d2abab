# Upstream trackers of VPNHotspot's upstreams preference

This project models, in Dafny, the core of `UpstreamsPreference`: the settings entry that shows
which network interface the hotspot currently shares (the *primary* upstream) and which it falls
back to (the *fallback* upstream).

- **Route check.** When an upstream comes up, its routes are checked against the fixed probe
  address 8.8.8.8. The interface "has internet" exactly when some route matches the probe. A route
  whose matcher throws a runtime fault counts as not matching. The fault never escapes. A route is
  modelled by what matching it against the probe yields: `Match`, `NoMatch` or `Fault`.
- **Trackers.** `Monitor` is a class holding an optional `Interface(ifname, internet)`, with
  `internet` defaulting to true. `OnAvailable`, `OnLost` and, on the fallback tracker only,
  `OnFallback` each replace that state wholesale. Each then asks for exactly one refresh, which is
  counted in the ghost field `updates`. The ghost field `history` records the callbacks received.
  The object invariant ties the state to a replay of that history.
- **Labels.** A tracker's label is a function of its state. An absent state shows the empty-set
  glyph U+2205. A present state shows the interface name, in bold exactly when it has internet. The
  bold emphasis is a flag on the label and never changes the characters.
- **Summary.** The summary is the two-slot template filled in the fixed order primary, then
  fallback. It is modelled as the pair of the two labels. `UpstreamsPreference.Refresh` is the job
  that `onUpdate` schedules.

Last write wins: after any non-empty sequence of callbacks, a tracker's state, and so its label and
its half of the summary, depends only on the last callback it received.

The routes are a list scanned in order. Each `onUpdate` launches its own refresh job, and nothing
coalesces them. The model counts every update request, and `Refresh` is idempotent, so repeated
refreshes are harmless.

## Model

| member | source | states |
|---|---|---|
| `Upstreams.MatchesOrFalse` | mobile/src/main/java/be/mygod/vpnhotspot/preference/UpstreamsPreference.kt:38-43 | one route counts as matching exactly when its matcher answers "match"; a fault counts as no match |
| `Upstreams.HasInternetRoute` | mobile/src/main/java/be/mygod/vpnhotspot/preference/UpstreamsPreference.kt:37-44 | the internet flag is true iff at least one route matches the probe without faulting; false for an empty route list; total, so no fault escapes |
| `Upstreams.NonMatchingRouteIsIgnored` | mobile/src/main/java/be/mygod/vpnhotspot/preference/UpstreamsPreference.kt:37-44 | inserting a non-matching or faulting route anywhere in the list never changes the internet flag |
| `Upstreams.FaultingRouteIsSkipped` | mobile/src/main/java/be/mygod/vpnhotspot/preference/UpstreamsPreference.kt:38-43 | a faulting route behaves exactly like a "no match" route, and the remaining routes still decide |
| `Upstreams.LabelOf` | mobile/src/main/java/be/mygod/vpnhotspot/preference/UpstreamsPreference.kt:30-34 | absent gives the plain empty-set glyph; present gives text equal to the interface name, bold iff it has internet |
| `Upstreams.LabelDeterminesPresentState` | mobile/src/main/java/be/mygod/vpnhotspot/preference/UpstreamsPreference.kt:30-34 | two present states show the same label iff they are equal; a present state looks like "absent" only for a non-internet interface named with the glyph itself |
| `Upstreams.StateAfter` | mobile/src/main/java/be/mygod/vpnhotspot/preference/UpstreamsPreference.kt:37-57 | the state each callback installs, ignoring the old one: `onAvailable` gives the name with internet iff some route matches; `onLost` (and only it) gives absent; `onFallback` gives `<default>` with internet |
| `Upstreams.Replay` | mobile/src/main/java/be/mygod/vpnhotspot/preference/UpstreamsPreference.kt:36-58 | the state after callbacks delivered in order: the start state when there are none, otherwise a state one of the callbacks installed |
| `Upstreams.ReplayLastEventWins` | mobile/src/main/java/be/mygod/vpnhotspot/preference/UpstreamsPreference.kt:36-58 | after any non-empty sequence of callbacks the state is the one the last callback installs |
| `Upstreams.ReplayForgetsStart` | mobile/src/main/java/be/mygod/vpnhotspot/preference/UpstreamsPreference.kt:36-58 | a non-empty sequence of callbacks leads to the same state and label from any starting state |
| `Upstreams.ReplayAppend` | mobile/src/main/java/be/mygod/vpnhotspot/preference/UpstreamsPreference.kt:36-58 | delivering one more callback gives the state that callback installs, whatever the history |
| `Upstreams.Summarize` | mobile/src/main/java/be/mygod/vpnhotspot/preference/UpstreamsPreference.kt:76-77 | the template's first slot shows the primary state (glyph or name, bold iff internet) and its second slot the fallback state |
| `Upstreams.SummaryFollowsLastEvents` | mobile/src/main/java/be/mygod/vpnhotspot/preference/UpstreamsPreference.kt:75-77 | the summary's primary slot is the label from the primary's last callback, its fallback slot the label from the fallback's last callback |
| `Upstreams.Monitor.constructor` | mobile/src/main/java/be/mygod/vpnhotspot/preference/UpstreamsPreference.kt:28-29 | a fresh tracker holds no interface and has asked for no update |
| `Upstreams.Monitor.OnAvailable` | mobile/src/main/java/be/mygod/vpnhotspot/preference/UpstreamsPreference.kt:36-46 | the state becomes the given name with internet iff some route matches the probe; one update is requested; the invariant is kept |
| `Upstreams.Monitor.OnLost` | mobile/src/main/java/be/mygod/vpnhotspot/preference/UpstreamsPreference.kt:48-51 | the state becomes absent whatever it was; one update is requested; the invariant is kept |
| `Upstreams.Monitor.OnFallback` | mobile/src/main/java/be/mygod/vpnhotspot/preference/UpstreamsPreference.kt:55-59 | on the fallback tracker only, the state becomes `<default>` with the default internet = true; one update is requested |
| `Upstreams.UpstreamsPreference.constructor` | mobile/src/main/java/be/mygod/vpnhotspot/preference/UpstreamsPreference.kt:54-60 | two distinct fresh trackers, a primary and a fallback, both holding no interface, with no callbacks received and no update requested |
| `Upstreams.UpstreamsPreference.Refresh` | mobile/src/main/java/be/mygod/vpnhotspot/preference/UpstreamsPreference.kt:75-77 | the summary becomes the primary label then the fallback label; recomputing with no event in between leaves it unchanged; each slot follows its tracker's last callback |

## Left out

- Lifecycle binding (lines 62-73): registering and unregistering the trackers with
  `UpstreamMonitor` and `FallbackUpstreamMonitor` on start and stop. Those monitors are not part of
  this model. Since stopping is not modelled, a tracker keeps its last state across a stop and
  restart, as the code does.
- Deferred scheduling (line 75): `launchWhenStarted` suspends the refresh until the owner is
  started and cancels it on teardown. The model counts the update requests and treats `Refresh` as
  the job that eventually runs. Concurrent delivery of callbacks is not modelled.
- Route matching and the probe (lines 24, 39): `RouteInfo.matches` and the parsing of 8.8.8.8 are
  platform calls. A route is represented by its match outcome against the probe, not by an IP prefix.
- Styling and localisation (lines 31-32, 76): the bold span, the string resource and
  `SpanFormatter.format` are represented by a bold flag on the label and an ordered pair of labels.
- Logging (line 41): the warning logged for a faulting route has no modelled effect.
- `Upstreams.Monitor.OnFallback` requires the fallback tracker. The primary tracker does not
  override `onFallback`, and the primary monitor never delivers it. The inherited default in
  `UpstreamMonitor.Callback` is not part of this model.
