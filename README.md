# skyterm in Dafny

skyterm is a terminal planetarium. It works out where stars, Messier
objects, the Sun, the Moon and the planets stand in an observer's sky, and
it paints them into a grid of terminal characters. A keyboard-driven model
moves the view, runs a simulated clock, and selects and searches objects.
Its trigonometry is beyond proof, but the discrete logic around it is not.
This project models that logic and proves what it guarantees:

- **Time scales.** The Julian Date of a calendar instant (Meeus), with the
  package's golden values. Greenwich and local sidereal time, wrapped into
  [0, 24). The zero-padded clock formatting.
- **Coordinates.** The equatorial/horizontal conversions: argument clamps,
  quadrant flips and right-ascension normalisation. The RA and Dec text
  formats. Rise, transit and set classification. The planet skeleton: the
  element table, the fixed ten-step Kepler iteration, the fallback for an
  unknown body, body tagging and order.
- **Catalogs.** The in-place position refresh, which rewrites only altitude
  and azimuth. The configuration defaults and the merge rule of `Load`.
- **Render pipeline.** The character canvas with its bounds-guarded `Set`.
  `Project`'s gates. Every layer: stars, grid, constellation figures drawn
  with Bresenham lines that never overwrite another glyph, labels, planets
  and deep-sky objects. The Braille bit-mask canvas.
- **Interaction.** `Update` as a state machine: mode precedence, buffer
  editing, view clamps, magnitude cycling, pause and step rules,
  nearest-object selection, following and search.
- **Offline image helpers.** Wikipedia name variants and the order in which
  an article is chosen. Terminal capability detection, image signature
  sniffing, the Kitty graphics protocol's chunked transmission and the
  half-block glyph choice. The image cache's file naming and entry
  validation over a directory modelled as a map.

Go's `float64` is Dafny's `real`, and Go `int`s are unbounded integers.
`math.Sin`, `math.Acos` and the other transcendental functions cannot be
computed over reals, so they arrive as a `GoMath.MathLib` record of
functions. The few laws a property needs (such as `acos` mapping [-1, 1]
into [0, π]) are hypotheses of the lemma that uses them. The Meeus
routines arrive the same way, as an `AstroPlanets.Ephemeris`.

Each renderer has a pure function giving its list of cell writes (a
`Brush` display list). Its method walks the canvas arrays the way the Go
loops do and is proved to show exactly that list (`Canvas.Shows`). The
lemmas state what the writes mean: where they land, what they overwrite,
which one wins where writes overlap. The interactive `Model` is a class
whose methods update its fields in place. Each method is proved to move
`State()` exactly as a function of `AppUpdate`, `AppSelection` or
`AppSearch` says, and the properties are proved about those functions.

All files are verified together, with the resource limit bounding each
proof obligation:

    dafny verify --resource-limit 2000000 --verification-time-limit 0 --warn-contradictory-assumptions *.dfy

## Model

| member | source | states |
|---|---|---|
| AstroTime.JulianDateAtJ2000 | internal/astro/time.go:9-35 | 2000-01-01 12:00 UTC has Julian Date exactly 2451545.0, the J2000.0 epoch |
| AstroTime.JulianDateAtUnixEpoch | internal/astro/time.go:9-35 | 1970-01-01 00:00 UTC has Julian Date 2440587.5 |
| AstroTime.JulianDateAt2025 | internal/astro/time.go:9-35 | 2025-01-01 00:00 UTC has Julian Date 2460676.5 |
| AstroTime.JanFebAsPreviousYear | internal/astro/time.go:21-24 | January and February give the same Julian Date whether or not they are renumbered as months 13 and 14 of the previous year |
| AstroTime.JulianDateLinearInDay | internal/astro/time.go:27-32 | within a month, one more day adds exactly 1 to the Julian Date and one more hour adds 1/24 |
| AstroTime.GregorianCorrection | internal/astro/time.go:29-30 | for years from 0 on, the correction `2 - a + a/4` with `a = year/100` equals the Gregorian rule `2 - year/100 + year/400` |
| AstroTime.JulianDateWholeSeconds | internal/astro/time.go:13-27 | the Julian Date ignores the sub-second part of the instant |
| AstroTime.DaysSinceJ2000 | internal/astro/time.go:78-81 | the day count plus the J2000.0 epoch is the instant's Julian Date |
| AstroTime.GMST | internal/astro/time.go:39-55 | Greenwich mean sidereal time lies in [0, 24) hours |
| AstroTime.WrapHours | internal/astro/time.go:67-72 | the add-24 and subtract-24 loops end with the residue of the input modulo 24, in [0, 24) (`calculateTransit` runs the same loops) |
| AstroTime.LST | internal/astro/time.go:58-75 | local sidereal time is GMST plus the east longitude in hours, reduced modulo 24 into [0, 24) |
| AstroTime.Wrap24Periodic | internal/astro/time.go:67-72 | the reduction is unchanged by whole multiples of 24 hours |
| AstroTime.LocalSiderealTimeAtGreenwich | internal/astro/time.go:58-75 | at longitude 0 local sidereal time is GMST |
| AstroTime.LocalSiderealTimeEastward | internal/astro/time.go:62-72 | moving 15 degrees east adds one hour, modulo 24 |
| AstroTime.FormatInt | internal/astro/time.go:95-102 | `formatInt(n, width)` returns exactly `width` characters (none for a negative width): the low decimal digits of n under Go's truncating `%` and `/` |
| AstroTime.FixedDigitsValue | internal/astro/time.go:95-102 | for n >= 0 the text is `width` decimal digits denoting n mod 10^width: zero-padded when n is short, high digits dropped when it is long |
| AstroTime.FormatTime | internal/astro/time.go:91-93 | eight characters, colons at 2 and 5, and each field is the two-digit `formatInt` of h, m, s |
| AstroTime.SiderealFieldsRange | internal/astro/time.go:84-87 | for a time in [0, 24) the truncated fields are a clock reading: h < 24, m < 60, s < 60 |
| AstroTime.FormatSiderealTimeShape | internal/astro/time.go:84-89 | for a time in [0, 24) the text is "hh:mm:ss" whose three fields denote exactly the hour, minute and second |
| AstroTime.FormatSiderealTimeAlmostMidnight | internal/astro/time.go:84-89 | 23.9999 hours prints "23:59:59", truncated rather than rounded |
| AstroTime.FormatSiderealTimeHalfPastSix | internal/astro/time.go:84-89 | 6.5 hours prints "06:30:00" |
| AstroTime.FormatSiderealTimeWholeHours | internal/astro/time.go:84-89 | 0 and 12 hours print "00:00:00" and "12:00:00" |
| AstroObserver.NewObserver | internal/astro/observer.go:14-21 | the observer carries exactly the given latitude, longitude, altitude and name |
| AstroObserver.LST | internal/astro/observer.go:24-27 | the observer's sidereal time is `LST` of the instant's Julian Date at the observer's longitude, in [0, 24) |
| AstroCoords.HorizontalInRange | internal/astro/coords.go:21-56 | given the ranges of `math.Asin` and `math.Acos`, altitude is in [-90, 90] and azimuth in [0, 360]; a positive sine of the hour angle puts the azimuth at 180 or more, otherwise at 180 or less |
| AstroCoords.ZenithStar | internal/astro/coords.go:21-56 | a star whose declination is the latitude and whose right ascension is the local sidereal time stands at altitude 90 |
| AstroCoords.NormalizeTurn | internal/astro/coords.go:85-94 | the two loops leave the right ascension `lst*15*Pi/180 - ha` reduced modulo 2 Pi into [0, 2 Pi) |
| AstroCoords.HorizontalToEquatorial | internal/astro/coords.go:59-100 | the result is the spherical-triangle declination and hour angle with the reduced right ascension, in hours in [0, 24) |
| AstroCoords.EquatorialInRange | internal/astro/coords.go:59-100 | given the range of `math.Asin`, declination is in [-90, 90]; right ascension is always in [0, 24) |
| AstroCoords.SexagesimalRange | internal/astro/coords.go:104-106 | for a value in [0, 100) the truncated whole part is below 100, the minutes below 60 and the seconds in [0, 60) |
| AstroCoords.SecondsField | internal/astro/coords.go:126-131 | `formatFloat(s, 4, 1)` for s in [0, 60) is four characters: two digits of the whole seconds, a point, one digit of the truncated tenths |
| AstroCoords.FormatRAShape | internal/astro/coords.go:103-109 | a right ascension in [0, 24) prints as 13 characters "HHh MMm SS.Ss" with two-digit hour and minute fields |
| AstroCoords.FormatDecSign | internal/astro/coords.go:112-124 | the first character is '-' exactly for a negative declination, and the rest depends only on the magnitude |
| AstroCoords.FormatDecShape | internal/astro/coords.go:112-124 | a declination in (-100, 100) prints as 14 characters: sign, "DD° MM' SS.S\"" |
| AstroCoords.FormatRAExamples | internal/astro/coords.go:103-109 | the test's right ascensions: 0, 12 and 6.5 hours print "00h 00m 00.0s", "12h 00m 00.0s" and "06h 30m 00.0s", so they contain "00h", "12h" and "06h 30m" |
| AstroCoords.FormatDecExamples | internal/astro/coords.go:112-124 | the test's declinations: 0, 45 and -30 degrees print "+00° 00' 00.0\"", "+45° 00' 00.0\"" and "-30° 00' 00.0\"", so they start "+00°", "+45°" and "-30°" |
| AstroRiseSet.Classify | internal/astro/riseset.go:33-50 | a quotient above 1 never rises, one below -1 is circumpolar, otherwise it rises and sets with that cosine, which is in [-1, 1] |
| AstroRiseSet.CalculateTransit | internal/astro/riseset.go:71-109 | the transit is placed at the whole hours and minutes of solar time after midnight given by the wrapped sidereal hours |
| AstroRiseSet.TransitWithinDay | internal/astro/riseset.go:97-106 | hours < 24 and minutes < 60, so the transit is a whole minute of the same day, no later than 23:59 |
| AstroRiseSet.CalculateRiseSetTransit | internal/astro/riseset.go:20-68 | the result for the object on the day of `t`, computed from that day's midnight |
| AstroRiseSet.RiseSetTransitFrom | internal/astro/riseset.go:25-67 | never rising gives midnight and no rise or set; circumpolar gives only the transit; otherwise rise and set lie the half arc before and after the transit |
| AstroRiseSet.RiseSetTransitShape | internal/astro/riseset.go:20-68 | the three outcomes are exclusive; rise and set exist together exactly when the object rises and sets, are symmetric about the transit and, given `math.Acos` in [0, Pi], at most 12 hours from it |
| AstroRiseSet.HalfArcBound | internal/astro/riseset.go:53-61 | given `math.Acos` in [0, Pi], the half arc is between 0 and 12 hours of nanoseconds |
| AstroRiseSet.EquatorialObjectRises | internal/astro/riseset.go:25-35 | from the equator, an object on the celestial equator rises and sets |
| AstroRiseSet.FormatTime | internal/astro/riseset.go:112-117 | nil prints "---"; otherwise five characters "hh:mm" of the instant's hour and minute |
| AstroPlanets.PlanetOf | internal/astro/planets.go:137-189 | a name the switch accepts is the name of the planet it selects |
| AstroPlanets.PlanetOfName | internal/astro/planets.go:137-186 | every planet's own name selects that planet |
| AstroPlanets.UnknownPlanet | internal/astro/planets.go:187-188 | an unknown name gives a planet with that name and every other field zero |
| AstroPlanets.ElementsAffine | internal/astro/planets.go:137-186 | every orbital element is affine in the centuries T |
| AstroPlanets.ElementsAreEllipses | internal/astro/planets.go:137-186 | within 3000 years of J2000.0 each planet has a positive semi-major axis and an eccentricity in [0, 1) |
| AstroPlanets.SolveKepler | internal/astro/planets.go:200-204 | the loop performs exactly ten rounds of `E = M + e sin E` from `E = M` |
| AstroPlanets.KeplerCircular | internal/astro/planets.go:200-204 | with e = 0 the eccentric anomaly is the mean anomaly |
| AstroPlanets.KeplerNearMean | internal/astro/planets.go:200-204 | with `math.Sin` bounded by 1, every round stays within \|e\| of the mean anomaly |
| AstroPlanets.OrbitRadiusBounds | internal/astro/planets.go:210 | for 0 <= e < 1 the distance lies between perihelion a(1-e) and aphelion a(1+e) |
| AstroPlanets.MagnitudeTable | internal/astro/planets.go:256-273 | each planet's magnitude is its entry in the map, and every key of the map is a planet the switch accepts |
| AstroPlanets.CalculatePlanetLowPrecision | internal/astro/planets.go:126-275 | the planet computed from the table's elements, the ten-round Kepler solve and the ecliptic-to-horizontal chain, or the zero planet for an unknown name |
| AstroPlanets.PlanetTagging | internal/astro/planets.go:187-275 | the result keeps the name; an unknown name gives the zero planet; a known one is tagged as a planet with the table's magnitude |
| AstroPlanets.CalculatePlanets | internal/astro/planets.go:49-70 | the system holds the Sun, the Moon and the seven planets, each computed for the same Julian Ephemeris Day |
| AstroPlanets.SunMoonTagged | internal/astro/planets.go:73-122 | the Sun is named "Sun", tagged as the Sun with magnitude -26.7; the Moon likewise with -12.0 |
| AstroPlanets.PlanetsAtTagged | internal/astro/planets.go:61-67 | each planet field holds that planet, tagged with its name, as a planet, with its magnitude |
| AstroPlanets.AllPlanets | internal/astro/planets.go:303-315 | nine bodies |
| AstroPlanets.AllPlanetsOrder | internal/astro/planets.go:303-315 | for a computed system the list is Sun, Moon, Mercury, ..., Neptune, each with its tag and magnitude |
| AstroPlanets.MoonPhaseRange | internal/astro/planets.go:278-300 | when the elongation cosine is in [-1, 1] and `math.Acos` in [0, Pi], the phase lies in [0, 1] |
| AppSelection.ClearedSelection | internal/app/selection.go:22-26 | afterwards nothing is selected and nothing followed, and every other part of the state is as it was |
| AppSelection.WithinRadius | internal/app/selection.go:170-184 | with a square root that is the root, an on-screen object is within 15 cells exactly when its squared offset from the centre is below 225; an off-screen one never is |
| AppSelection.ScanAppend | internal/app/selection.go:41-92 | running the three loops one after the other with the same `minDist` and `nearest` is one scan over the concatenated lists |
| AppSelection.ScanIgnored | internal/app/selection.go:59-92 | a loop that considers none of its objects (planets or deep-sky objects hidden) leaves `minDist` and `nearest` as they were |
| AppSelection.ScanPicksNearest | internal/app/selection.go:37-92 | the scan ends with nil exactly when no considered object is within the radius (and `minDist` is still `math.MaxFloat64`), and otherwise with the nearest one, the earliest among equally near ones |
| AppSelection.StarCandidates | internal/app/selection.go:41-56 | one candidate per star, in catalog order, considered exactly when its magnitude is not above the limit |
| AppSelection.PlanetCandidates | internal/app/selection.go:59-72 | the nine bodies of `AllPlanets`, considered exactly when planets are shown |
| AppSelection.DeepSkyCandidates | internal/app/selection.go:75-92 | one candidate per deep-sky object, considered exactly when deep-sky objects are shown and its magnitude is not above the limit plus 3 |
| AppSelection.SelectedNearestSpec | internal/app/selection.go:28-95 | without a canvas nothing changes; otherwise only the selected object changes: to nil when nothing qualifies, else to the nearest qualifying object, the earliest among equals |
| AppSelection.ScannedStars | internal/app/selection.go:41-56 | the scan looks first at every star, in catalog order |
| AppSelection.ScannedPlanets | internal/app/selection.go:59-72 | then at the Sun, the Moon and the seven planets |
| AppSelection.ScannedDeepSky | internal/app/selection.go:75-92 | then at the deep-sky objects |
| AppSelection.CenteredSpec | internal/app/selection.go:97-127 | centring changes only the view's altitude and azimuth; a selection whose position is not (0, 0) moves the view onto that position; no selection, or one at (0, 0), changes nothing; centring twice is centring once |
| AppSelection.FirstNamed | internal/app/selection.go:138-166 | the index found holds the name; nothing is found only when no object has the name |
| AppSelection.RefreshedSameObject | internal/app/selection.go:136-167 | the latest copy is of the same kind and has the same name; for each kind, it is the first star, body or deep-sky object in catalog order with that name; there is none exactly when no object of that kind has the name |
| AppSelection.FollowedSpec | internal/app/selection.go:129-168 | following changes nothing unless it is on and something is selected; changes only the selection's copy and the view; the selection becomes the latest copy when there is one and stays otherwise; keeps the same name selected; moves the view onto the copy; and a second refresh changes nothing |
| AppSelection.FollowedStar | internal/app/selection.go:137-146 | with a star followed, the selection becomes the first catalog star with its name, the view moves to that star's altitude and azimuth, and nothing else changes |
| AppSelection.FollowedPlanet | internal/app/selection.go:147-156 | with a body followed, the selection becomes the first of the nine bodies with its name, the view moves to that body, and nothing else changes |
| AppSelection.FollowedDeepSky | internal/app/selection.go:157-166 | with a deep-sky object followed, the selection becomes the first catalog object with its name, the view moves to that object, and nothing else changes |
| AppSelection.FollowedLost | internal/app/selection.go:136-167 | a selection with no namesake of its kind left in the catalog leaves the state as it was |
| AppSearch.SearchHitSpec | internal/app/search.go:16-61 | a star is selected exactly when some star matches, and then it is the first matching one; the first matching body exactly when no star matches and some body does; the first matching deep-sky object ("name common-name") exactly when neither matches and some object does; nothing exactly when nothing matches |
| AppSearch.SearchedNothing | internal/app/search.go:8-62 | an empty query or one that matches nothing changes nothing |
| AppSearch.SearchedSelects | internal/app/search.go:16-61 | a matching query selects the hit, shows the info panel and centres on the hit, and changes nothing else |
| AppSearch.BlankQuerySelectsFirstStar | internal/app/search.go:8-28 | a query of spaces only gets past the empty check, trims to "" and selects the first star of the catalog |
| AppUpdate.Initial | internal/app/app.go:66-101 | the view starts 45 degrees up, facing south, 60 degrees wide; planets and deep-sky objects hidden, star labels shown, the remaining switches and the magnitude limit from the configuration; clock and base at `now`, running at multiplier 1; an unparseable time step becomes one minute |
| AppUpdate.Resized | internal/app/app.go:135-139 | the width is the window's, the height two rows less, a canvas of that size exists and nothing else changes |
| AppUpdate.ClockRules | internal/app/app.go:112-124 | a paused tick leaves the clock alone; a running one sets the time to base plus the elapsed time scaled and truncated, and moves the base only at multiplier 1 |
| AppUpdate.NormalSpeedTracksTick | internal/app/app.go:113-122 | at multiplier 1 a running tick sets both the time and the base to the tick |
| AppUpdate.TickRules | internal/app/app.go:109-133 | a tick advances the clock, places the catalogs and bodies for the new time and then follows; nothing else changes |
| AppUpdate.RunningTickShowsRealTime | internal/app/app.go:109-133 | the simulated time of a running tick at normal speed is the tick instant |
| AppUpdate.SettingsNeverChange | internal/app/app.go:107-364 | no message changes the time step or the multiplier |
| AppUpdate.TimeInputFirst | internal/app/app.go:143-181 | while the time box is open every key goes to it: it never quits and changes only its text, its flag and the clock's time, base and pause flag |
| AppUpdate.SearchSecond | internal/app/app.go:184-207 | next the search box: it never quits and changes only the query, its flag, and what a search changes |
| AppUpdate.SearchKeyFrame | internal/app/app.go:184-207 | the search box's keys change only the query, its flag, the selection, the info panel and the view |
| AppUpdate.HelpSwallowsKeys | internal/app/app.go:210-215 | on the help screen only `esc` and `?` act, closing it; every other key is ignored |
| AppUpdate.QuitOnlyFromMainView | internal/app/app.go:107-364 | `Update` quits exactly for the quit key outside the two boxes and the help screen |
| AppUpdate.MainKeyFrame | internal/app/app.go:217-360 | a main-view key never touches the catalogs, the screen, the step or the multiplier; the clock changes only for time keys, the view only for navigation and centring, the selection only for selecting and following |
| AppUpdate.EditRules | internal/app/app.go:169-179 | backspace drops the last character of a non-empty buffer; a key whose text is one byte is appended; anything else is ignored |
| AppUpdate.TypeableIsAscii | internal/app/app.go:176-178 | a key text of one UTF-8 byte is a single ASCII character |
| AppUpdate.EditKeepsAscii | internal/app/app.go:169-179 | an ASCII buffer stays ASCII and its byte length is its length, so dropping a character is dropping a byte as Go does |
| AppUpdate.TimeEnterRules | internal/app/app.go:149-168 | a non-empty text that parses sets the time to the parse, the base to now, and pauses; otherwise the clock is unchanged |
| AppUpdate.ParsedTimeOrder | internal/app/app.go:152-164 | the text parses when one of the three layouts accepts it, and the first accepting layout decides |
| AppUpdate.EscapeAndEnter | internal/app/app.go:145-194 | `esc` closes either box with an empty buffer changing nothing else; `enter` closes either box with an empty buffer |
| AppUpdate.DefaultsInRange | internal/app/app.go:79-81 | the default controls pan by at most 360 degrees and zoom by at least 1, and the starting view is in range |
| AppUpdate.ZoomOutStays | internal/app/app.go:312-313 | zooming out by a factor of at least 1 from a field of at least 10 keeps it at least 10 |
| AppUpdate.ZoomInStays | internal/app/app.go:310-311 | zooming in by a factor of at least 1 never widens the field |
| AppUpdate.NavKeepsRange | internal/app/app.go:290-331 | with sane controls every navigation key keeps altitude in [-90, 90], azimuth in [0, 360) and the field in [10, 120] |
| AppUpdate.NavMovesOneAxis | internal/app/app.go:290-331 | altitude keys change only the altitude, azimuth keys only the azimuth, zoom keys only the field |
| AppUpdate.PanWraps | internal/app/app.go:294-307 | panning right from an azimuth in range wraps the sum once past 360; panning left wraps the difference once below 0 |
| AppUpdate.FmodInFirstTwoTurns | internal/app/app.go:295-307 | `math.Mod(x, 360)` for x in [0, 720) is x or x - 360 |
| AppUpdate.ResetAndCardinals | internal/app/app.go:316-331 | reset restores the starting view; the cardinal keys face 0, 180, 90 and 270 degrees; zenith looks at 90 |
| AppUpdate.MagnitudeCycle | internal/app/app.go:348-359 | the limit cycles 3, 4, 5, 6, 3, sends any other limit to 3, and four presses return to the start |
| AppUpdate.ClockKeyRules | internal/app/app.go:250-282 | step keys move the time by one or ten steps either way and pause; pause toggles and moves the base only when resuming; jump-to-now runs from now |
| AppUpdate.StepsCancel | internal/app/app.go:258-276 | a step forward then back, plain or fast, returns the time, leaving the clock paused |
| AppUpdate.FollowNeedsSelection | internal/app/app.go:238-242 | the follow key flips following exactly when something is selected and changes nothing else |
| AppUpdate.ToggleFlipsOne | internal/app/app.go:334-347 | each display key negates its own switch (grid, constellations, names, planets, planet labels, deep sky, star labels) and keeps every other switch; the switches change, and pressing twice restores them |
| App.Model.constructor | internal/app/app.go:66-101 | the new model's state is `Initial` for the configuration, with fresh catalogs and the configured observer |
| App.Model.ClearSelection | internal/app/selection.go:22-26 | the state becomes `ClearedSelection` of the old one |
| App.Model.NearestStar | internal/app/selection.go:37-56 | the star loop ends with the scan of the star candidates from `math.MaxFloat64` and nil |
| App.Model.NearestPlanet | internal/app/selection.go:59-72 | the body loop, skipped when planets are hidden, continues the scan over the nine bodies |
| App.Model.NearestDeepSky | internal/app/selection.go:75-92 | the deep-sky loop, skipped when deep-sky objects are hidden, continues the scan over the deep-sky objects |
| App.Model.SelectNearestObject | internal/app/selection.go:28-95 | the state becomes `SelectedNearest` of the old one |
| App.Model.CenterOnSelected | internal/app/selection.go:97-127 | the state becomes `Centered` of the old one |
| App.Model.StarNamed | internal/app/selection.go:138-146 | the loop finds a star exactly when one has the name, and then the first such |
| App.Model.PlanetNamed | internal/app/selection.go:148-156 | likewise for the nine bodies |
| App.Model.DeepSkyNamed | internal/app/selection.go:158-166 | likewise for the deep-sky objects |
| App.Model.UpdateFollowing | internal/app/selection.go:129-168 | the state becomes `Followed` of the old one |
| App.Model.SelectHit | internal/app/search.go:16-61 | selecting the search's hit, centring and showing the info panel is `Searched` of the old state |
| App.Model.StarMatching | internal/app/search.go:16-28 | the loop finds a star exactly when one's lower-cased name contains the query, and then the first such |
| App.Model.PlanetMatching | internal/app/search.go:31-45 | likewise for the nine bodies |
| App.Model.DeepSkyMatching | internal/app/search.go:48-61 | likewise for "name common-name" of the deep-sky objects |
| App.Model.PerformSearch | internal/app/search.go:8-62 | the state becomes `Searched` of the old one |
| App.Model.AdvanceClock | internal/app/app.go:112-124 | only the clock changes, to `Clocked` of the old clock |
| App.Model.PlaceAll | internal/app/app.go:126-128 | only the sky changes: stars, deep-sky objects and bodies placed for the current time |
| App.Model.Tick | internal/app/app.go:109-133 | the state becomes `Ticked` of the old one |
| App.Model.Resize | internal/app/app.go:135-139 | the state becomes `Resized` of the old one, with a fresh canvas of the new size |
| App.Model.TimeInputKeyPressed | internal/app/app.go:143-181 | the state becomes `TimeInputKey` of the old one |
| App.Model.SearchKeyPressed | internal/app/app.go:184-207 | the state becomes `SearchKey` of the old one |
| App.Model.TimeKeyPressed | internal/app/app.go:250-282 | only the clock changes, to `ClockKey` of the old clock |
| App.Model.NavigatedView | internal/app/app.go:290-331 | the view the navigation key leads to, `NavView` of the configured controls |
| App.Model.NavKeyPressed | internal/app/app.go:290-331 | only the view changes, to `NavView` |
| App.Model.ToggleKeyPressed | internal/app/app.go:334-347 | only the display switches change, to `ToggleKey` |
| App.Model.MainKeyPressed | internal/app/app.go:217-360 | the state and quit flag are `MainKey` of the old state |
| App.Model.KeyMsgReceived | internal/app/app.go:141-215 | the state and quit flag are `KeyPressed` of the old state |
| App.Model.Update | internal/app/app.go:107-364 | the state and quit flag are `Updated` of the old state and the message |
| UiSearch.FirstMatch | internal/ui/search.go:59-77 | the index found holds a name whose lower-case form contains the query and no earlier name does; none is found only when no name does |
| UiSearch.SearchObjects | internal/ui/search.go:51-80 | not found is ("", "", false); a found name contains the trimmed, lower-cased query and is the first entry of the list its type names that does |
| UiSearch.SearchBlankQuery | internal/ui/search.go:52-56 | a query of white space only finds nothing |
| UiSearch.SearchFindsAnyMatch | internal/ui/search.go:58-79 | a non-blank query finds something exactly when some name in some list matches |
| UiSearch.SearchPriority | internal/ui/search.go:58-77 | the first matching star is found when any star matches; otherwise the first matching planet when any planet matches; otherwise the first matching deep-sky object; a planet only when no star matches, a deep-sky object only when no star or planet matches |
| Configuration.DefaultConfig | internal/config/defaults.go:4-31 | New York City at (40.7128, -74.0060), 10 m; magnitude limit 5 with only star colouring on; local time with a step of "1m"; pan 5, fast multiplier 4, zoom 1.2 |
| Configuration.MergedSections | internal/config/config.go:73-83 | each of location, display and controls is replaced whole by the default exactly when its key field is zero (both coordinates for the location); the time section is kept |
| Configuration.MergedIdempotent | internal/config/config.go:73-83 | merging twice is merging once, the defaults are a fixed point, and every key field of a merged configuration is non-zero |
| Configuration.LoadFailuresYieldDefaults | internal/config/config.go:53-71 | a missing, unreadable or unparseable file gives the defaults; a parsed one keeps its time section |
| Configuration.Load | internal/config/config.go:53-86 | the result is the merged configuration for a parsed file and the defaults otherwise; the error is always nil |
| Configuration.ObserverOf | internal/config/config.go:89-96 | the observer has exactly the location's latitude, longitude, altitude and name |
| Configuration.DefaultObserverAgrees | internal/config/config.go:89-96 | the default configuration's observer is `DefaultObserver()` |
| Catalog.FixturesInSky | internal/catalog/catalog.go:7-8 | every modelled star and Messier entry has RA in [0, 24) hours and Dec in [-90, 90] degrees |
| Catalog.PlacedStarProperties | internal/catalog/stars.go:22-32 | an update changes only a star's altitude and azimuth, to the horizontal conversion of its own RA and Dec, and a second update at the same instant changes nothing |
| Catalog.PlacedStars | internal/catalog/stars.go:22-32 | every star updated, count and order kept |
| Catalog.PlacedStarsIdempotent | internal/catalog/stars.go:22-32 | updating the catalog twice at the same instant is updating once |
| Catalog.PlacedObjectProperties | internal/catalog/deepsky.go:22-32 | likewise for one deep-sky object: only its position changes, to the conversion of its own coordinates |
| Catalog.PlacedObjects | internal/catalog/deepsky.go:22-32 | every object updated, count and order kept |
| Catalog.PlacedObjectsIdempotent | internal/catalog/deepsky.go:22-32 | updating twice at the same instant is updating once |
| CatalogStars.StarCatalog.constructor | internal/catalog/stars.go:15-19 | the new catalog holds the bright-star table, in order, in fresh storage |
| CatalogStars.StarCatalog.UpdatePositions | internal/catalog/stars.go:22-32 | the array, updated in place, holds the placed stars of its old contents |
| CatalogStars.StarCatalog.Stars | internal/catalog/stars.go:35-37 | the catalog's own storage, not a copy |
| CatalogStars.RefreshTwice | internal/catalog/stars.go:22-32 | two updates in place at the same instant leave what one leaves |
| CatalogDeepSky.DeepSkyCatalog.constructor | internal/catalog/deepsky.go:15-19 | the new catalog holds the Messier table, in order, in fresh storage |
| CatalogDeepSky.DeepSkyCatalog.UpdatePositions | internal/catalog/deepsky.go:22-32 | the array, updated in place, holds the placed objects of its old contents |
| CatalogDeepSky.DeepSkyCatalog.Objects | internal/catalog/deepsky.go:35-37 | the catalog's own storage, not a copy |
| RenderCanvas.Apply | internal/render/canvas.go:50-57 | a write changes only its own cell, to its own content, and an unconditional one always does |
| RenderCanvas.PaintedSnoc | internal/render/canvas.go:50-57 | one more write applies on top of the writes before it |
| RenderCanvas.PaintedAppend | internal/render/canvas.go:50-57 | painting two batches of writes one after the other is painting the concatenation |
| RenderCanvas.PaintedElsewhere | internal/render/canvas.go:50-57 | a cell no write targets keeps its contents |
| RenderCanvas.PaintedLastWins | internal/render/canvas.go:50-57 | a cell whose last write is unconditional shows that write, whatever came before |
| RenderCanvas.PaintedGuarded | internal/render/canvas.go:50-57 | a glyph outside every guarded write's list survives guarded writes: a guarded layer never overwrites a foreign glyph |
| RenderCanvas.Canvas.constructor | internal/render/canvas.go:20-37 | the canvas has the given size (neither negative, as `make` demands) and every cell is a blank with the plain style |
| RenderCanvas.Canvas.Clear | internal/render/canvas.go:39-48 | every cell is blank again |
| RenderCanvas.Canvas.Set | internal/render/canvas.go:50-57 | inside the canvas exactly that cell changes, to the given glyph and style; outside it nothing changes |
| RenderCanvas.Canvas.SetOver | internal/render/grid.go:38-43 | the guarded write: the cell changes only when its glyph is among the given ones |
| RenderCanvas.Canvas.RowPieces | internal/render/canvas.go:62-65 | a row's first n cells, left to right |
| RenderCanvas.Canvas.Render | internal/render/canvas.go:59-71 | the output is every row's cells in order, rows separated by newlines |
| RenderCanvas.Canvas.RowStartIsProduct | internal/render/canvas.go:59-71 | row y starts after y rows of `width` glyphs and a newline each |
| RenderCanvas.Canvas.RowStartsIncrease | internal/render/canvas.go:59-71 | a later row starts after the end of an earlier one |
| RenderCanvas.Canvas.RenderedLength | internal/render/canvas.go:59-71 | the output has `width` glyphs per row and a newline between consecutive rows, none after the last |
| RenderCanvas.Canvas.RenderedGlyph | internal/render/canvas.go:61-65 | cell (x, y) is emitted at position y * (width + 1) + x: row-major order |
| RenderCanvas.Canvas.RenderedNewline | internal/render/canvas.go:66-68 | every row but the last is followed by a newline |
| RenderCanvas.LabelBrushesClipped | internal/render/planets.go:77-83 | label writes are unconditional, stay on the label's row within the canvas, at or right of the start column, with the label's characters and style |
| RenderCanvas.LabelBrushesAscii | internal/render/planets.go:77-83 | an ASCII label that fits puts character k at column x0 + k |
| RenderCanvas.WriteLabel | internal/render/planets.go:77-83 | the `range` loop over the label writes each character at x0 plus its byte offset where that column is inside the canvas |
| RenderStyles.CharForMagnitude | internal/render/stars.go:56-63 | the table's glyph for the magnitude rounded by `math.Round`, or '·' outside the table |
| RenderStyles.MagnitudeTableDomain | internal/render/stars.go:11-21 | the table covers the rounded magnitudes -2 through 6 and no other |
| RenderStyles.CharForMagnitudeExamples | internal/render/stars.go:56-63 | Sirius (-1.46) gets '✦'; halves round away from zero, so 0.5 gets '◉', -0.5 gets '✦', and -2.5 and 6.5 fall outside the table |
| RenderStyles.SpectralColor | internal/render/stars.go:65-70 | the table's colour for the type, or "231" for any other |
| RenderStyles.SpectralColorTable | internal/render/stars.go:24-32 | exactly the seven classes O, B, A, F, G, K, M have their own colour, with the listed values; every other type is white |
| RenderStyles.StarStyle | internal/render/styles.go:6-24 | the foreground is the type's colour when colouring by type and "231" otherwise; bold exactly below magnitude 0.5 |
| RenderStyles.StarStyleUncoloured | internal/render/styles.go:9-16 | without colouring by type the style does not depend on the type |
| RenderStyles.StarChar | internal/render/styles.go:27-29 | always a glyph of the table: the one of the rounded magnitude from -2 to 6 |
| RenderStars.CrossPerpendicular | internal/render/stars.go:106-120 | the cross products the projection builds are perpendicular to both factors |
| RenderStars.DotNormalized | internal/render/stars.go:110-115 | normalising by a positive length keeps a vector perpendicular |
| RenderStars.Place | internal/render/stars.go:131-140 | the point is visible exactly when its truncated column and row are inside the screen, and then it lies there; otherwise (0, 0, false) |
| RenderStars.Project | internal/render/stars.go:73-141 | a visible point lies on the screen; an object farther than half the field from the centre is not visible, and every invisible result is (0, 0, false) |
| RenderStars.HalfTruncates | internal/render/stars.go:132-133 | `int(float64(w)/2.0)` is the integer half of w |
| RenderStars.CentreOnAxes | internal/render/stars.go:100-124 | the view centre has zero coordinates on both screen axes |
| RenderStars.PlaceOrigin | internal/render/stars.go:131-140 | the tangent-plane origin lands on the middle cell (w/2, h/2) |
| RenderStars.ProjectCentre | internal/render/stars.go:73-141 | an object at the view centre, when visible, is drawn on the middle cell |
| RenderStars.RowAntitone | internal/render/stars.go:133 | rows are inverted: higher on the tangent plane is never a lower row |
| RenderStars.ColumnMonotone | internal/render/stars.go:132 | columns follow the right-coordinate |
| RenderStars.StarBrushesFromStars | internal/render/stars.go:34-54 | every write is unconditional, on screen, and comes from one star; a star is drawn exactly when it is not fainter than the limit and its projection is visible, with its magnitude glyph and type colour |
| RenderStars.RenderStars | internal/render/stars.go:34-54 | the canvas shows the star writes, in catalog order, over its previous contents |
| RenderGrid.DegreeLabelOffsets | internal/render/grid.go:30-31 | in a grid label only the final degree sign is wider than one byte, so each character's byte offset is its index |
| RenderGrid.CircleDotsSamples | internal/render/grid.go:16-24 | an altitude circle writes exactly the dots at its visible samples, azimuths 0, 5, ..., 355 |
| RenderGrid.MeridianDotsSamples | internal/render/grid.go:42-50 | a meridian writes exactly the dots at its visible samples, altitudes -90, -85, ..., 90 |
| RenderGrid.CircleDotsAreDots | internal/render/grid.go:18-23 | every write of an altitude circle is the grey dot, guarded by a blank cell |
| RenderGrid.MeridianDotsAreDots | internal/render/grid.go:44-49 | every write of a meridian is the grey dot, guarded by a blank cell |
| RenderGrid.DotsFillOnlyBlanks | internal/render/grid.go:19-22 | dots never overwrite a character: a non-blank cell keeps it, and a blank cell stays blank or shows the dot |
| RenderGrid.ColumnBrushesIndexed | internal/render/grid.go:57-61 | when the offsets are the indices and the label fits, character k goes to row y0 + k |
| RenderGrid.ColumnBrushesClipped | internal/render/grid.go:57-61 | column writes are unconditional, stay in the label's column and go down from its start, never below the last row |
| RenderGrid.AzimuthLabelLayout | internal/render/grid.go:52-62 | the azimuth label goes down from the meridian's horizon point, cut at the bottom edge; when it fits, character k is on row y + k |
| RenderGrid.AltitudeLabelLayout | internal/render/grid.go:26-36 | the altitude label goes right from the circle's point at the view's azimuth, cut at the right edge; when it fits, character k is on column x + k |
| RenderGrid.LabelBrushesIndexed | internal/render/grid.go:31-35 | when the offsets are the indices and the label fits, character k goes to column x0 + k |
| RenderGrid.CardinalShows | internal/render/grid.go:77-82 | a visible cardinal letter is on its cell after the cardinal loop, unless another cardinal projects to the same cell |
| RenderGrid.CardinalAtPaints | internal/render/grid.go:78-81 | one cardinal write changes only the cell its letter projects to, to the bold yellow letter |
| RenderGrid.CardinalsOverwrite | internal/render/grid.go:9-83 | after the whole grid a visible cardinal letter is on its cell, over any dot or label, unless another cardinal shares the cell |
| RenderGrid.WriteColumnLabel | internal/render/grid.go:57-61 | the label loop writes character k at the row of its byte offset, where that row is above the bottom edge |
| RenderGrid.DrawDot | internal/render/grid.go:17-23 | one sample: the dot at its projection, only over a blank cell |
| RenderGrid.DrawCircleDots | internal/render/grid.go:16-24 | the canvas shows the circle's 72 samples |
| RenderGrid.DrawAltitudeCircle | internal/render/grid.go:14-37 | the canvas shows one circle's dots followed by its label |
| RenderGrid.DrawMeridianDots | internal/render/grid.go:42-50 | the canvas shows the meridian's 37 samples |
| RenderGrid.DrawMeridian | internal/render/grid.go:40-62 | the canvas shows one meridian's dots followed by its label |
| RenderGrid.DrawAltitudeCircles | internal/render/grid.go:14-37 | the canvas shows the thirteen circles from -90 to 90 degrees in steps of 15 |
| RenderGrid.DrawMeridians | internal/render/grid.go:40-63 | the canvas shows the twenty-four meridians from 0 to 345 degrees in steps of 15 |
| RenderGrid.DrawCardinal | internal/render/grid.go:78-81 | the canvas shows one cardinal write |
| RenderGrid.DrawCardinals | internal/render/grid.go:65-82 | the canvas shows N, E, S and W at their horizon points |
| RenderGrid.RenderGridLayer | internal/render/grid.go:9-83 | the canvas shows the circles, then the meridians, then the cardinals, over its previous contents |
| RenderLabels.LabelBesidePlacement | internal/render/planets.go:68-83 | a label is written only for a visible marker, on its row, from two columns right of it, inside the canvas, unconditionally; an ASCII name that fits takes consecutive columns |
| RenderLabels.WriteLabelBeside | internal/render/planets.go:68-83 | the canvas shows the label beside the projection (the same steps open the label loops of starlabels.go and deepsky.go) |
| RenderPlanets.BodiesNamed | internal/render/planets.go:30 | the bodies of a computed system come as Sun, Moon, Mercury, ..., Neptune |
| RenderPlanets.PlanetGlyphTable | internal/render/planets.go:15-28 | each of the nine names has its own symbol, and the empty name of an uncomputed body has none |
| RenderPlanets.PlanetGlyphCoversBodies | internal/render/planets.go:15-40 | every body `AllPlanets` lists has a symbol, and no two share one |
| RenderPlanets.PlanetMarkerPlacement | internal/render/planets.go:30-48 | a body is drawn exactly when it is visible and its name is in the table: one bold write of its symbol in its colour, on the canvas |
| RenderPlanets.PlanetMarkersElsewhere | internal/render/planets.go:30-48 | a cell no body marks keeps what it held |
| RenderPlanets.PlanetMarkersLastWins | internal/render/planets.go:30-48 | where bodies overlap the last one in the list that marks the cell shows, whatever the cell held |
| RenderPlanets.PlanetMarkerPaints | internal/render/planets.go:32-47 | one body's write changes only the cell it marks |
| RenderPlanets.DrawPlanet | internal/render/planets.go:31-47 | the canvas shows one body's write |
| RenderPlanets.RenderPlanets | internal/render/planets.go:9-49 | a nil system changes nothing; otherwise the canvas shows the symbols of the nine bodies, in order |
| RenderPlanets.DrawPlanets | internal/render/planets.go:30-48 | the canvas shows the writes of the bodies, in order |
| RenderPlanets.PlanetLabelPlacement | internal/render/planets.go:61-83 | a visible body is labelled even when it has no symbol; the label is yellow and bold, right of the body, and an ASCII name that fits takes consecutive cells |
| RenderPlanets.PlanetLabelsFrom | internal/render/planets.go:61-84 | every write of the label layer belongs to the label of one body |
| RenderPlanets.DrawPlanetLabel | internal/render/planets.go:62-83 | the canvas shows one body's label |
| RenderPlanets.RenderPlanetLabels | internal/render/planets.go:52-85 | a nil system changes nothing; otherwise the canvas shows the nine labels, in order |
| RenderPlanets.DrawPlanetLabels | internal/render/planets.go:61-84 | the canvas shows the labels of the bodies, in order |
| RenderDeepSky.TypeGlyphTable | internal/render/deepsky.go:13-43 | each of the six named types has its own symbol, none of them the default; any other type gets the grey default symbol |
| RenderDeepSky.DeepSkyMarkerPlacement | internal/render/deepsky.go:25-48 | an object is drawn exactly when it is no fainter than the limit plus three and visible: one foreground-only write of its type's symbol at its projection |
| RenderDeepSky.DeepSkyMarkersLastWins | internal/render/deepsky.go:25-48 | where objects overlap the last one in the list that marks the cell shows, whatever the cell held |
| RenderDeepSky.DrawDeepSkyObject | internal/render/deepsky.go:26-47 | the canvas shows one object's write |
| RenderDeepSky.RenderDeepSkyObjects | internal/render/deepsky.go:11-49 | the canvas shows the symbols of all objects, in order |
| RenderDeepSky.MessierLabelDigits | internal/render/deepsky.go:70 | the label is "M" and at least one ASCII digit, and for a non-negative number the digits read back as the number |
| RenderDeepSky.DeepSkyLabelPlacement | internal/render/deepsky.go:57-86 | an object is labelled under the same magnitude and visibility rule as its symbol; "M<number>" sits on its row from two columns right, magenta and faint, clipped, consecutive when it fits |
| RenderDeepSky.CatalogLabels | internal/catalog/messier.go:17-55 | every catalog entry's label is its own name, and its type is one the symbol table names |
| RenderDeepSky.DeepSkyLabelsFrom | internal/render/deepsky.go:57-87 | every write of the label layer belongs to the label of one object |
| RenderDeepSky.DrawDeepSkyLabel | internal/render/deepsky.go:58-86 | the canvas shows one object's label |
| RenderDeepSky.RenderDeepSkyLabels | internal/render/deepsky.go:52-88 | the canvas shows the labels of all objects, in order |
| RenderStarLabels.StarLabelPlacement | internal/render/starlabels.go:14-46 | only a star of magnitude at most 2.5 and at most the limit, whose projection is visible, is labelled; the label is its name on its row from two columns right, white and faint, clipped to the canvas |
| RenderStarLabels.StarLabelBrushesFrom | internal/render/starlabels.go:14-47 | every write of the layer belongs to the label of one star |
| RenderStarLabels.DrawStarLabel | internal/render/starlabels.go:15-46 | the canvas shows one star's label |
| RenderStarLabels.RenderStarLabels | internal/render/starlabels.go:9-48 | the canvas shows the labels of all stars, in order |
| RenderLines.ErrorAfterClosed | internal/render/constellations.go:108-133 | after i steps in x and j in y the error term is dx - dy - i*dy + j*dx |
| RenderLines.StartOnTrack | internal/render/constellations.go:95-110 | the loop starts on track: at (x1, y1), no step taken, error dx - dy |
| RenderLines.NoOvershoot | internal/render/constellations.go:123-133 | away from the target the `e2` tests move some axis, and never one that has reached its target |
| RenderLines.StepOnTrack | internal/render/constellations.go:123-133 | away from the target a step keeps the invariant, gets strictly closer, and moves each coordinate at most one cell toward the target |
| RenderLines.TraceInBox | internal/render/constellations.go:112-139 | every visited cell lies within the endpoints' bounding box and on the canvas |
| RenderLines.TraceNeighbours | internal/render/constellations.go:112-139 | consecutive visited cells are distinct 8-neighbours |
| RenderLines.TraceReachesTarget | internal/render/constellations.go:112-139 | with both endpoints on the canvas the safety check never cuts the line short: it ends at (x2, y2) |
| RenderLines.PathGeometry | internal/render/constellations.go:94-140 | the path of a line starting on the canvas starts at (x1, y1), stays in the box and on the canvas, moves between neighbours, and ends at (x2, y2) when that is on the canvas |
| RenderLines.LineKeepsForeignGlyphs | internal/render/constellations.go:113-117 | a cell holding neither a space nor the line glyph survives the line |
| RenderLines.LineOffPath | internal/render/constellations.go:112-139 | a cell the line does not visit is unchanged |
| RenderLines.LineOnPath | internal/render/constellations.go:113-117 | a visited cell that held a space or the line glyph shows the line glyph in the line style |
| RenderLines.LineBrushesAt | internal/render/constellations.go:113-117 | one guarded write per visited cell, in visiting order |
| RenderLines.TraceBrushesAlongTrace | internal/render/constellations.go:112-139 | the writes made along the loop are the guarded writes of the visited cells |
| RenderLines.Advance | internal/render/constellations.go:123-133 | the `e2` block computes one Bresenham step |
| RenderLines.DrawLine | internal/render/constellations.go:94-140 | the canvas shows the guarded line glyph on every cell of the path, which the lemmas above characterise |
| RenderConstellations.StarMapDomain | internal/render/constellations.go:11-14 | a name is in the map exactly when some star has it |
| RenderConstellations.StarMapLastWins | internal/render/constellations.go:11-14 | of several stars with one name the map holds the last |
| RenderConstellations.BuildStarMap | internal/render/constellations.go:11-14 | the loop builds the name map the two lemmas above describe |
| RenderConstellations.LineSegmentJoinsStars | internal/render/constellations.go:20-43 | a line is drawn exactly when both names are known and distinct and both stars are in view; it then runs from the first star's cell to the second's through neighbouring cells, all on the canvas |
| RenderConstellations.SegmentStrokes | internal/render/constellations.go:16-17 | every write of one figure line is the grey stroke on the canvas, guarded by a space or the stroke |
| RenderConstellations.FigureStrokes | internal/render/constellations.go:20-44 | every write of a figure's lines is such a guarded stroke |
| RenderConstellations.ConstellationStrokes | internal/render/constellations.go:19-45 | every write of the constellation layer is such a guarded stroke |
| RenderConstellations.ConstellationsKeepForeignGlyphs | internal/render/constellations.go:113-117 | stars, labels and every other glyph already drawn survive the layer; a blank or stroke cell keeps its value or shows the stroke |
| RenderConstellations.RenderConstellationLines | internal/render/constellations.go:9-46 | the canvas shows the writes of every figure, in order, with the map built from the stars |
| RenderConstellations.DrawFigure | internal/render/constellations.go:20-44 | the canvas shows the writes of one figure's lines, in order |
| RenderConstellations.LabelRowPlacement | internal/render/constellations.go:71-81 | for a star on the canvas the label goes on an adjacent row: above when there is one, below on the top row, and is dropped only on a one-row canvas |
| RenderConstellations.LabelWritesPlacement | internal/render/constellations.go:59-89 | a label is written only for a known, visible star, bright cyan and bold, on the row beside it, from two columns right, on the canvas; an ASCII name that fits takes consecutive columns |
| RenderConstellations.RenderConstellationLabels | internal/render/constellations.go:49-91 | the canvas shows the labels of every entry, in order, with the map built from the stars |
| RenderConstellations.DrawConstellationLabel | internal/render/constellations.go:60-89 | the canvas shows one entry's label |
| RenderBraille.DotBitsAreTheEightBits | internal/render/braille.go:17-30 | the eight dots are eight distinct single bits that together fill the byte, so a cell can show any of the 256 patterns |
| RenderBraille.BrailleCharRange | internal/render/braille.go:79 | every mask gives a character of the Braille Patterns block U+2800..U+28FF, and different masks give different characters |
| RenderBraille.MaskPlottedIsUnion | internal/render/braille.go:54-72 | plotting pixels only ORs bits in: the mask becomes the old mask with the dots of the pixels that fall in the cell |
| RenderBraille.HitBitsAppend | internal/render/braille.go:54-72 | the dots of two runs of pixels combine by OR |
| RenderBraille.PlotOrderAndRepeat | internal/render/braille.go:54-72 | on masks plotting does not depend on the order of the pixels, and plotting the same pixels again changes nothing |
| RenderBraille.MaskAfterEffect | internal/render/braille.go:54-72 | a pixel off the canvas changes no cell; one on it raises exactly its own dot in its own cell |
| RenderBraille.ClusterPixels | internal/render/braille.go:124-142 | a star brighter than magnitude 1 sets the 3 x 3 block around its pixel, one brighter than 3 the 2 x 2 block right and below, any other its own pixel |
| RenderBraille.StarPixels | internal/render/braille.go:105-142 | a star fainter than the limit or not visible sets no pixel; any other sets its cluster at the truncated pixel of its normalised position |
| RenderBraille.BrailleCanvas.constructor | internal/render/braille.go:33-50 | a new canvas of the given size has every mask empty and every style plain |
| RenderBraille.BrailleCanvas.SetPixel | internal/render/braille.go:54-72 | a pixel on the canvas ORs its dot into its own cell and gives the cell the style; every other cell, and every cell for a pixel off the canvas, is unchanged |
| RenderBraille.BrailleCanvas.PlotPixels | internal/render/braille.go:127-141 | the canvas holds the pixels plotted in order over its old contents |
| RenderBraille.BrailleCanvas.PlotStar | internal/render/braille.go:106-142 | the canvas holds one star's pixels plotted in its spectral colour |
| RenderBraille.BrailleCanvas.RenderStarsBraille | internal/render/braille.go:100-152 | because `projectNormalized` reports every position as not visible, the canvas is unchanged |
| RenderBraille.BrailleCanvas.Clear | internal/render/braille.go:90-97 | every mask is empty and every style plain again |
| RenderBraille.BrailleCanvas.RowPieces | internal/render/braille.go:78-81 | a row is its cells in order, each the Braille character of its mask in its style |
| RenderBraille.BrailleCanvas.RenderedIsBraille | internal/render/braille.go:75-87 | everything `Render` emits is a Braille pattern or a newline |
| RenderBraille.BrailleCanvas.Render | internal/render/braille.go:75-87 | the output is the rows in order, a newline after every row but the last |
| ImageCache.Sanitize | internal/image/cache.go:104-109 | the file name maps each rune on its own: allowed characters are kept and every other becomes '_' |
| ImageCache.SanitizeProperties | internal/image/cache.go:102-112 | the sanitiser keeps the rune count, keeps allowed characters, turns any other into '_', yields only allowed characters and is idempotent |
| ImageCache.CacheFileName | internal/image/cache.go:111 | every cache file name ends in ".json", so `Size` and `Clear` see every file `Set` writes |
| ImageCache.SanitizeCollides | internal/image/cache.go:104-111 | names that differ only in disallowed characters share one cache file ("M 31" and "M_31") |
| ImageCache.LookupAbsent | internal/image/cache.go:53-57 | a name with no file is a cache miss |
| ImageCache.LookupAfterStore | internal/image/cache.go:50-98 | after `Set`, `Get` of the same name returns the stored info for 30 days and reports it stale after; other files read as before |
| ImageCache.LookupChecksVersionFirst | internal/image/cache.go:66-74 | a wrong version is reported however old the entry is |
| ImageCache.ClearedContents | internal/image/cache.go:115-131 | `Clear` removes exactly the cache files: none is left, and every other entry is kept with its contents |
| ImageCache.ImageCache.constructor | internal/image/cache.go:32-47 | an empty directory argument means the home directory's ".cache/skyterm/images" |
| ImageCache.ImageCache.Get | internal/image/cache.go:50-77 | the result is the lookup above: miss, read failure, decode failure, version mismatch, stale, or the stored info |
| ImageCache.ImageCache.Set | internal/image/cache.go:80-99 | the directory gains the current-version entry with the time and name under the sanitised file name, replacing any file there |
| ImageCache.ImageCache.Clear | internal/image/cache.go:115-131 | the directory loses exactly its ".json" files |
| ImageCache.ImageCache.Size | internal/image/cache.go:134-148 | the count is the number of ".json" files in the directory |
| ImageCache.SizeAfterClear | internal/image/cache.go:115-148 | after `Clear`, `Size` is 0 |
| ImageTerminal.DetectionRules | internal/image/terminal.go:42-65 | Kitty exactly when the window id is set, TERM contains "kitty" or TERM_PROGRAM is "kitty"; otherwise iTerm2 exactly when TERM_PROGRAM is "iTerm.app"; otherwise Unicode; never Sixel or None |
| ImageTerminal.CapabilityStringNames | internal/image/terminal.go:302-315 | a value is named "None" exactly when it is not one of the four protocols, and the four protocols have four different names |
| ImageTerminal.RenderDispatch | internal/image/terminal.go:68-85 | `Render` fails exactly when the bytes do not decode; Sixel and every capability other than Kitty and iTerm2 go to the block-art renderer |
| ImageTerminal.DetectImageFormatRules | internal/image/terminal.go:142-163 | the format is png, jpeg or gif exactly when the input has at least four bytes and starts with that signature, and "unknown" otherwise |
| ImageTerminal.SignaturesDisjoint | internal/image/terminal.go:148-160 | no input carries two signatures, so PNG never loses to another test |
| ImageTerminal.KittyFormatCodeOfData | internal/image/terminal.go:92-102 | the Kitty format code is 24 for JPEG data and 100 for anything else |
| ImageTerminal.KittyChunksCover | internal/image/terminal.go:107-133 | the chunks concatenate to the encoded text, each of 1 to 4096 characters |
| ImageTerminal.KittyChunkFlags | internal/image/terminal.go:118-132 | only the first chunk carries the image parameters; every chunk but the last has m=1 and the last m=0 |
| ImageTerminal.KittyChunkCount | internal/image/terminal.go:111 | the text takes as many chunks as 4096-character pieces are needed to hold it |
| ImageTerminal.RenderKitty | internal/image/terminal.go:88-139 | the output is the commands of the chunks in order, the first with format code and size, then a newline, which ends it |
| ImageTerminal.KittyEmpty | internal/image/terminal.go:111-136 | an empty image text gives no command, only the newline |
| ImageTerminal.BlockCharRules | internal/image/terminal.go:208-248 | the glyph follows the five rules in the order the source tests them: both transparent, top transparent, bottom transparent, alike, brighter half |
| ImageTerminal.BlockCharShowsPixels | internal/image/terminal.go:220-248 | an upper or lower half block is painted in the colour of that opaque pixel over the other pixel or black; a full block only for a bright top |
| ImageTerminal.BlockCharMirror | internal/image/terminal.go:220-248 | swapping the two pixels swaps upper and lower half blocks and keeps the colours, unless two opaque pixels are too alike to split |
| ImageTerminal.AspectRatioBounds | internal/image/terminal.go:318-342 | the size is never under 10 by 5; the height exceeds the limit only to reach 5; when the width fits, the height follows the image's shape to within half a row; a zero image height keeps the full width (at least 10) and gives the minimum height of 5 |
| ImageWikipedia.GreekVariantsMembers | internal/image/wikipedia.go:448-462 | whatever order the map is visited in, a string is a Greek-letter variant exactly when it is one of the two replacements of a letter whose Latin name the lower-cased name contains |
| ImageWikipedia.GreekVariantsLength | internal/image/wikipedia.go:457-462 | each mentioned letter adds two variants, and a name that mentions none gets none |
| ImageWikipedia.AppendGreekVariants | internal/image/wikipedia.go:456-462 | the loop appends the Greek-letter variants for the visiting order |
| ImageWikipedia.GenerateNameVariants | internal/image/wikipedia.go:422-473 | the variants are the Messier form, the name, the catalogue forms, the Greek-letter forms and the six clarified forms, in that order |
| ImageWikipedia.MessierLikeLong | internal/image/wikipedia.go:427-428 | a name passing the Messier test starts with the one-byte 'M' or 'm' and has more characters, so "Messier " + the rest is always added |
| ImageWikipedia.VariantsStart | internal/image/wikipedia.go:427-435 | a Messier-like name tries "Messier <rest>" first and itself second; any other name tries itself first |
| ImageWikipedia.VariantsEnd | internal/image/wikipedia.go:435-472 | there are always at least seven variants, the last six being the clarified forms in order |
| ImageWikipedia.VariantsRules | internal/image/wikipedia.go:438-462 | an NGC prefix adds the spaced NGC form, an IC prefix on a longer name the spaced IC form, and the Greek-letter rule holds whatever the visiting order |
| ImageWikipedia.FirstAcceptableSpec | internal/image/wikipedia.go:113-126 | the first pass returns the first variant that is not the ambiguous original and is an existing, non-disambiguation article, and nothing exactly when there is none |
| ImageWikipedia.SearchArticle | internal/image/wikipedia.go:109-163 | the result is the first acceptable variant, else the name itself if it is a non-disambiguation article, else the search answer's first title, its error, or "no article found" |
| ImageWikipedia.ExactRetryOnlyForAmbiguous | internal/image/wikipedia.go:112-133 | the exact-name retry only matters for an ambiguous name: any other existing, non-disambiguation name resolves in the first pass |
| ImageWikipedia.MessierFirst | internal/image/wikipedia.go:112-133 | a Messier-like name resolves to "Messier <rest>" whenever that article exists and is not a disambiguation page |

## Left out

- The terminal user interface: `View`, `renderStatusBar`, `Init`, `tickCmd`, and the ui package's search box, help, info panel and time-input renderers. The model produces the canvas those renderers would print.
- The escape sequences lipgloss wraps around a styled cell. `Render` yields the cells and row separators, and a style is recorded as the attributes the renderers set.
- internal/app/commands.go, internal/image/image.go, internal/astro/current.go and the constellation-figure tables of internal/catalog/constellations.go are not part of this model. The figure lines and labels are parameters of the renderers.
- Catalog.BrightStars and Catalog.MessierObjects hold the first twenty entries of `loadBrightStars` and the first four Messier objects, not the full tables. The full tables are long data with nothing further to prove.
- Floating point: rounding, infinities and NaN. Reals are exact, and conversions to `int` truncate without Go's undefined out-of-range results.
- AstroCoords.HorizontalInRange and AstroCoords.EquatorialInRange: the `GoMath.AsinInRange` hypothesis bounds `asin` on every real. The argument `math.Asin` receives in coords.go:37 and coords.go:71 is not clamped; exact trigonometry keeps it in [-1, 1], but a rounding error beyond either end gives NaN in Go.
- AppUpdate.ZoomedIn: a zoom step of 0 leaves the field of view unchanged. In Go the division gives an infinity or NaN.
- AstroRiseSet.Classify: the 0/0 that Go turns into NaN is taken as cos H0 = 1.
- RenderStars.Project: a zero `tan(fov/2)`, for which Go's scale is infinite, is reported as not visible.
- ImageTerminal.CalculateAspectRatio and ImageTerminal.AspectRatioBounds: require a non-zero image width, and a height limit of at least 0 when the image height is 0. A zero width makes the ratio 0, so Go divides the width by 0; a zero height with a negative limit multiplies that limit by an infinite ratio. Either way an infinity or NaN is converted to `int`, which has no defined value in Go. A zero height with a limit of 0 or more is modelled: the ratio is infinite and the derived height rounds to 0.
- AppUpdate.Resized and RenderCanvas.Canvas.constructor: require a non-negative width and at least two window rows. Go's `make` panics on a negative size (`AppUpdate.Handles`).
- The clock: `time.Now` is the `TickMsg` instant or one wall-clock reading per message. `time.Parse` and `time.ParseDuration` are parameters. Time zones are taken as UTC, and `time.Duration` overflow is not modelled.
- `strings.ToLower` and `strings.ToUpper` are modelled for ASCII letters only, and `strings.Title` for one word.
- Keys: bubbletea's key table is the `AppUpdate.Action` enum. The image key, which `Update` ignores, is `Unbound`.
- Typed input: the buffers hold ASCII characters, since only one-byte keys are appended.
- AppState: the model's fields are grouped into values. The app always allocates the planetary system, so it is never nil there; a nil system is modelled in the renderers. The `SelectedObject` pointer is a value, so aliasing between the selection and the catalogs is not modelled.
- Configuration: locating, reading and YAML-parsing the file are abstracted as a `FileResult`. `getConfigPath`, environment variables and `Save` are left out.
- The Meeus library (`meeus` package) and the trigonometric functions are the parameters described above.
- The grid's `float64` loop counters step by whole degrees, which is exact. They are modelled by sample indices.
- The four cardinal letters come from a Go map, whose iteration order is random. The model fixes N, E, S, W; the order matters only when two letters share a cell.
- RenderBraille.BrailleCanvas.RenderStarsBraille: `projectNormalized` is a placeholder that reports every position as not visible, so the method changes nothing. The cluster and pixel writes a visible star would make are modelled by `PlotStar`.
- The Wikipedia client's network calls are not modelled: `articleExists`, `isDisambiguationPage`, the search request of `searchArticle`, `apiRequest`, `FetchImage`, `getPageImage`, `getFirstPageImage`, `getImageURL` and `DownloadImage`, with the HTTP client `NewWikipediaClient` builds. The answers of the first three are parameters of `ImageWikipedia.Article`. `GetImageForObject` lives in image.go, which is not part of this model.
- ImageWikipedia.Article and ImageWikipedia.SearchArticle: the not-found message puts the name between two plain `"` characters. Go's `%q` also escapes quotes, backslashes and control characters in the name, so the two texts agree only for names without those characters.
- The Moon's coordinates: in Meeus, `moonposition.Position` returns the Moon's ecliptic longitude and latitude. The source uses them as right ascension and declination, and `AstroPlanets.Ephemeris` does the same. The size of that error is not modelled.
- `renderITerm2`, `renderUnicode` (Lanczos resizing and `ansiColor`), `RenderImageFromURL` and `NewTerminalRenderer`. The block-art renderer's glyph choice `blockChar` is modelled. The base64 text is an opaque string, and `image.Decode` is a yes/no outcome.
- The image cache's file system: JSON encoding, directory creation, and write and remove failures are left out. A file holds a decoded entry or undecodable bytes, and the clock is a parameter.
- Concurrency: none of the modelled code is concurrent.
