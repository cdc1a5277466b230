# Resume analysis result card and login form, in Dafny

This project models two parts of the resume-insights front end and proves
what they promise:

- `ResultCard` (`src/components/ResultCard.jsx`) turns an analysis response
  into a card. Four things are modelled: which case wins (loading, no data,
  error, one of the four report kinds, raw dump); the `||` fallback chains
  that pick each field out of differently shaped responses; which sections
  each report shows and in what order; and how a score value is read and
  coloured. The component is pure, so the model is made of datatypes,
  functions and lemmas. Its rendered output is an abstract `Card` of titled
  blocks of items (`Presentation`), with no markup or styling.
- `Login` (`src/pages/Login.jsx`) keeps a form state: the three inputs, the
  per-field error messages and the sign-in / sign-up mode. `LoginForm` is a
  class with those three fields. `validateForm`, `handleSubmit`,
  `handleChange` and the mode toggle are methods that update them. The
  validation rules, the email regular expression and the default user name
  are functions, with lemmas about them.

JavaScript semantics are written out where the source relies on them:

- `JsValue`: truthiness, optional chaining over absent keys, `Object.entries`
  and `String()`.
- `JsText`: the `\s` white-space class with `trim`, the UTF-16 `length` of a
  string, and `parseFloat` on integer text.

`Scenarios` works through a few concrete responses and forms.

Two behaviours of the source are worth stating up front:

- **Fallback chains.** A fallback chain takes the first *truthy* candidate (`||`), not the first one that is present. So `match_score: 0` falls through to `score`, while `missing_skills: []` stops the chain.
- **Contributing factors.** A factor's impact badge appears for any truthy `impact`, not only a numeric one. Its tone comes from comparing `impact` with 0 after JavaScript's coercion: `"5"`, `true` and `[5]` get the '+' success badge; `"abc"` and `{}` get the error badge without a sign. An `impact` or `description` equal to the number 0 renders as the text "0", because `0 && <element>` yields 0 and React renders numbers (`Guarded.StrayZero`).

## Model

| member | source | states |
|---|---|---|
| JsText.LeadingSpaces | src/pages/Login.jsx:23 | the number of leading characters that are white space: all of them are, and the next one is not |
| JsText.TrailingSpaces | src/pages/Login.jsx:23 | the number of trailing characters that are white space: all of them are, and the one before them is not |
| JsText.TrimStart | src/pages/Login.jsx:23 | the result is a suffix of the input; everything dropped is white space, and the result does not start with white space |
| JsText.TrimEnd | src/pages/Login.jsx:23 | the result is a prefix of the input; everything dropped is white space, and the result does not end with white space |
| JsText.Trim | src/pages/Login.jsx:23 | `trim()` never lengthens a string, and a non-empty result neither starts nor ends with white space |
| JsText.TrimSlice | src/pages/Login.jsx:23 | the input is white space, then the trimmed string, then white space: `trim` drops white space and only from the two ends |
| JsText.TrimEmptyIffBlank | src/pages/Login.jsx:27 | `!s.trim()` holds exactly when every character of `s` is white space |
| JsText.Utf16Length | src/pages/Login.jsx:35 | `password.length` counts UTF-16 units: at least one and at most two per code point |
| JsText.DigitRun | src/components/ResultCard.jsx:5 | the digit prefix `parseFloat` reads is all digits and is followed by no digit |
| JsText.NatToString | src/components/ResultCard.jsx:5 | `String(n)` of a natural number is a non-empty run of digits that starts with '0' only for 0 itself |
| JsText.NatToStringRoundTrip | src/components/ResultCard.jsx:5 | reading back the decimal text of a natural number gives the number |
| JsText.ParseFloatOfIntToString | src/components/ResultCard.jsx:5 | `parseFloat(String(n)) == n` for every integer, negative ones included |
| JsText.ParseFloat | src/components/ResultCard.jsx:5 | in the integer forms the model reads, `parseFloat` gives a number exactly when, after leading white space, the text starts with a digit or with a sign followed by a digit; a negative result has a leading '-' |
| JsText.SignedDigits | src/components/ResultCard.jsx:5 | an optional sign and a digit run give a number exactly when a digit follows the sign, and the value is negative only after '-' |
| JsText.ParseFloatOfWord | src/components/ResultCard.jsx:5 | in the integer forms the model reads, text starting with something other than white space, a sign or a digit parses as NaN |
| JsText.StringToNumber | src/components/ResultCard.jsx:253 | `Number()` of text: blank text is 0; otherwise a number exactly when the trimmed text is an optional sign followed by digits only (so `"5abc"` is NaN), and then it agrees with `parseFloat` of the same text |
| JsText.ParseFloatOfTrimmed | src/components/ResultCard.jsx:5 | when the trimmed text is a signed digit run, `parseFloat` reads exactly that run, with its sign |
| JsValue.Path | src/components/ResultCard.jsx:77 | `data?.a?.b`: a one-key path is the field itself, a two-key path such as `gaps.skills` is the field of the field, and any path into a non-object is undefined |
| JsValue.JsString | src/components/ResultCard.jsx:5 | `String()` keeps text unchanged, and the text of null, undefined, a boolean or an object starts with none of white space, a digit or a sign |
| JsValue.GreaterThanZero | src/components/ResultCard.jsx:253 | `x > 0` after coercion implies that `x` is truthy |
| JsValue.Lookup | src/components/ResultCard.jsx:75 | `data?.key` is the first entry with that key, or undefined when there is none |
| JsValue.FirstTruthy | src/components/ResultCard.jsx:75-79 | `a \|\| b \|\| d` is the first truthy candidate, or the default when all are falsy |
| JsValue.FirstTruthyIsCandidateOrDefault | src/components/ResultCard.jsx:75-79 | the chain's value is the default or a truthy candidate, and it is truthy whenever some candidate is truthy |
| JsValue.Entries | src/components/ResultCard.jsx:147 | `Object.entries`: an object's own entries in order; arrays and strings by index; nothing for other primitives |
| Score.Percentage | src/components/ResultCard.jsx:5 | a number is kept as is; any other value gives what `parseFloat` reads from its text (so `"85"`, `" 85 "` and `"85abc"` give 85), or 0 when `parseFloat` gives NaN |
| Score.Indicator | src/components/ResultCard.jsx:4-16 | a score indicator with the given caption and percentage, coloured success exactly from 80, warning from 60 below 80, and destructive below 60 |
| Score.Band | src/components/ResultCard.jsx:6-16 | the colour is success exactly from 80, warning exactly from 60 below 80, and destructive below 60, with no clamping |
| Score.BandMonotone | src/components/ResultCard.jsx:6-16 | a higher percentage never gets a worse colour |
| Score.NumberShownAsIs | src/components/ResultCard.jsx:5 | a number is shown unchanged, coloured by its own band |
| Score.NumericTextShownAsNumber | src/components/ResultCard.jsx:5 | numeric text, and a one-element array holding a number, show that number |
| Score.NoDigitsShowsZero | src/components/ResultCard.jsx:5 | in the integer forms the model reads, a non-number whose text holds no digit shows 0 (NaN `\|\| 0`) |
| Score.ObjectsAndBooleansShowZero | src/components/ResultCard.jsx:5 | objects, booleans and null/undefined show 0 |
| ResultCard.KindOf | src/components/ResultCard.jsx:316-325 | 'semantic', 'quality', 'improve' and 'ml' each select their own report, and any other type takes the default branch |
| ResultCard.Render | src/components/ResultCard.jsx:271-343 | the skeleton exactly while loading; nothing exactly for falsy data when not loading; otherwise a panel under the kind's title |
| ResultCard.Content | src/components/ResultCard.jsx:315-333 | the three score reports open with an untitled overview, the improvement report has only titled sections, and an unknown type is one raw dump of the data |
| ResultCard.Resolve | src/components/ResultCard.jsx:75-79 | a resolved field is truthy or is the field's default |
| ResultCard.AsList | src/components/ResultCard.jsx:95 | `.length > 0` and `.map` on a resolved value: an array gives its elements; a value whose `length` is positive but which is not an array is refused (the source throws); anything else has no elements |
| ResultCard.SemanticLayout | src/components/ResultCard.jsx:81-125 | an untitled two-item overview plus one titled section per non-empty list |
| ResultCard.SemanticMatchResult | src/components/ResultCard.jsx:74-125 | the semantic report: an untitled overview plus one titled section per non-empty resolved list |
| ResultCard.QualityLayout | src/components/ResultCard.jsx:138-168 | an untitled one-item score overview plus a titled section for a non-empty breakdown and one for non-empty issues |
| ResultCard.QualityScoreResult | src/components/ResultCard.jsx:131-171 | the quality report: the overview, then a section for each non-empty resolved breakdown and issues list |
| ResultCard.PriorityAndSuggestions | src/components/ResultCard.jsx:182-206 | one titled section for each non-empty list of priority actions and suggestions |
| ResultCard.Tips | src/components/ResultCard.jsx:214-218 | an array of tips gives one row per tip, in order; any other value gives a single row holding it |
| ResultCard.ImprovementResult | src/components/ResultCard.jsx:174-226 | the improvement report: the priority and suggestion sections plus one section per section-improvement entry, all titled |
| ResultCard.Factor | src/components/ResultCard.jsx:246-261 | the impact badge appears exactly for an object with a truthy impact, and a stray "0" exactly for an impact of 0; the same for the description |
| ResultCard.MLLayout | src/components/ResultCard.jsx:236-265 | an untitled two-indicator overview, then Contributing Factors only for a non-empty list |
| ResultCard.MLScoreResult | src/components/ResultCard.jsx:229-267 | the ML report: the overview plus a section for a non-empty resolved factor list |
| ResultCard.Candidates | src/components/ResultCard.jsx:75-79 | every resolved field has between one and three candidate paths |
| ResultCard.Probes | src/components/ResultCard.jsx:75-79 | one optional-chaining probe per candidate path, in order |
| ResultCard.SpaceForUnderscore | src/components/ResultCard.jsx:151 | `replace(/_/g, ' ')`: same length, each underscore becomes a space and every other character is kept |
| ResultCard.NumberedFrom | src/components/ResultCard.jsx:185-190 | the action at position i is shown with the number i + 1 |
| ResultCardProperties.LoadingWins | src/components/ResultCard.jsx:281-295 | while loading, the skeleton is shown for every type and every data |
| ResultCardProperties.FalsyDataRendersNothing | src/components/ResultCard.jsx:297 | falsy data renders nothing |
| ResultCardProperties.ErrorWins | src/components/ResultCard.jsx:300-313 | a truthy `error` gives the kind's title and one alert holding the error, and the same body for every type |
| ResultCardProperties.UnknownTypeDumpsData | src/components/ResultCard.jsx:325-331 | an unknown type is titled 'Analysis Result', shows a raw dump of the data, and always renders |
| ResultCardProperties.KnownTypesHaveOwnTitle | src/components/ResultCard.jsx:272-279 | the four known types are titled 'Semantic Match Analysis', 'Resume Quality Score', 'Improvement Suggestions' and 'ML Score Prediction'; two different known types never share a title, and none gets the fallback 'Analysis Result' |
| ResultCardProperties.CleanResponseShowsContent | src/components/ResultCard.jsx:315-340 | truthy data without a truthy error renders the kind's report under the kind's title |
| ResultCardProperties.PathChain | src/components/ResultCard.jsx:75-79 | over any list of paths: the first truthy path wins; all falsy gives the default; the result is always the default or a truthy path's value |
| ResultCardProperties.ResolveChain | src/components/ResultCard.jsx:75-79 | each canonical field is its first truthy candidate, or its default |
| ResultCardProperties.FirstCandidateWins | src/components/ResultCard.jsx:75 | a truthy first candidate wins, whatever the later candidates hold |
| ResultCardProperties.FalsyCandidateFallsThrough | src/components/ResultCard.jsx:75 | a falsy first candidate (0, '', false, null, missing) falls through to a truthy second one |
| ResultCardProperties.EmptyCollectionStopsChain | src/components/ResultCard.jsx:77 | an empty array or object is truthy, so it stops the chain |
| ResultCardProperties.AllFalsyGivesDefault | src/components/ResultCard.jsx:75-79 | when every candidate is falsy, scores become 0, the verdict '', the breakdown and section improvements {}, and every list [] |
| ResultCardProperties.DefaultsByField | src/components/ResultCard.jsx:175-177 | the default of each canonical field, by kind of field |
| ResultCardProperties.ResolvedFromCandidatesOrDefault | src/components/ResultCard.jsx:230-232 | a resolved field is never invented: it is the default or the value of a truthy candidate |
| ResultCardProperties.SemanticLayoutShape | src/components/ResultCard.jsx:84-125 | the semantic report is the overview followed by the three optional sections, in source order |
| ResultCardProperties.SemanticMatchLayout | src/components/ResultCard.jsx:81-125 | an untitled overview, then Matched Skills, Missing Skills and Experience Gaps |
| ResultCardProperties.SemanticOverview | src/components/ResultCard.jsx:85-89 | the overview shows the match score, then the verdict or 'Resume analysis complete' when no verdict is truthy |
| ResultCardProperties.SemanticLayoutSections | src/components/ResultCard.jsx:95-125 | for any parts, each list section is absent for an empty list; otherwise it appears once, with one item per element, in order |
| ResultCardProperties.SemanticMatchSections | src/components/ResultCard.jsx:95-125 | the same section rule for the resolved matched skills, missing skills and experience gaps |
| ResultCardProperties.QualityScoreLayout | src/components/ResultCard.jsx:138-168 | the quality report is the untitled score overview, the optional breakdown, then the optional issues |
| ResultCardProperties.QualityScoreSections | src/components/ResultCard.jsx:140-168 | the ATS score is always shown; the breakdown appears only with at least one key, one cell per entry in entry order; Issues Found appears only for a non-empty list |
| ResultCardProperties.BreakdownCellLabel | src/components/ResultCard.jsx:147-152 | a cell shows the entry's value under its key, with no underscore left |
| ResultCardProperties.NoUnderscoreLeft | src/components/ResultCard.jsx:151 | the rewritten label has no underscore, and rewriting twice equals rewriting once |
| ResultCardProperties.KeyWithoutUnderscoreUnchanged | src/components/ResultCard.jsx:151 | a key without underscores is shown unchanged |
| ResultCardProperties.PriorityAndSuggestionSections | src/components/ResultCard.jsx:182-206 | Priority Actions and Improvement Suggestions appear only for non-empty lists; the actions are numbered 1..N in input order |
| ResultCardProperties.ImprovementSections | src/components/ResultCard.jsx:180-223 | the priority and suggestion sections come first, then one section per section-improvement entry, in entry order |
| ResultCardProperties.SectionImprovementsFollow | src/components/ResultCard.jsx:209-223 | each entry section is titled by its key with underscores turned into spaces, and holds that entry's tips |
| ResultCardProperties.MLLayoutSections | src/components/ResultCard.jsx:236-265 | for any parts: the predicted score and the confidence side by side, then Contributing Factors only for a non-empty list, one entry per factor in order |
| ResultCardProperties.MLScoreSections | src/components/ResultCard.jsx:236-265 | the same layout for the resolved ML fields |
| ResultCardProperties.FactorPresentation | src/components/ResultCard.jsx:246-261 | the factor's name; an impact badge exactly for an object with a truthy impact, which is success with '+' exactly when the impact is above 0; a description exactly when it is truthy; a stray "0" exactly when the impact or the description is the number 0 |
| ResultCardProperties.NumericImpact | src/components/ResultCard.jsx:252-256 | impact 0 renders the text "0" instead of a badge, a positive impact a '+' success badge, and a negative one an error badge |
| Scenarios.FirstKeyWinsScenario | src/components/ResultCard.jsx:75 | `match_score: 10` wins over `score: 90` |
| Scenarios.ZeroScoreFallsThroughScenario | src/components/ResultCard.jsx:75 | `match_score: 0` falls through to `score: 90` |
| Scenarios.EmptyListStopsFallbackScenario | src/components/ResultCard.jsx:77 | `missing_skills: []` hides `gaps.skills` |
| Scenarios.SemanticScenario | src/components/ResultCard.jsx:74-125 | a concrete semantic response renders its overview, Matched Skills and Missing Skills, and no Experience Gaps |
| Scenarios.SemanticPanel | src/components/ResultCard.jsx:315-341 | the semantic example renders as a panel titled 'Semantic Match Analysis' holding the semantic report |
| Scenarios.ZeroImpactScenario | src/components/ResultCard.jsx:252-259 | a factor with impact 0 and description 0 shows its name and two stray "0" texts |
| Scenarios.ErrorScenario | src/components/ResultCard.jsx:300-313 | an error response shows one alert, for every type |
| Scenarios.OnlyPriorityActions | src/components/ResultCard.jsx:180-223 | a report whose only non-empty part is its priority actions is one numbered section |
| Scenarios.PriorityActionsScenario | src/components/ResultCard.jsx:182-195 | a response with only `priority_actions` gives one section numbered from 1 |
| Scenarios.QualityWithoutBreakdown | src/components/ResultCard.jsx:138-168 | with an empty breakdown, the quality report is the overview followed by the optional issues |
| Scenarios.IssuesBlocks | src/components/ResultCard.jsx:160-168 | a response holding only `issues` shows a score of 0 and its issues |
| Scenarios.NoIssuesScenario | src/components/ResultCard.jsx:160 | `issues: []` gives no Issues Found section |
| Scenarios.OneIssueScenario | src/components/ResultCard.jsx:160-168 | one issue gives one Issues Found section holding one row |
| Scenarios.SampleEmailValid | src/pages/Login.jsx:29 | `a@b.com` matches the regular expression and names the user 'a' |
| Scenarios.SignInScenario | src/pages/Login.jsx:43-50 | signing in with `a@b.com`, a six-character password and no name passes, and submits the user ('a', 'a@b.com') |
| EmailFormat.Count | src/pages/Login.jsx:29 | the count of a character is zero exactly when the character is absent |
| EmailFormat.BeforeFirst | src/pages/Login.jsx:48 | `split('@')[0]` is the prefix before the first '@', or the whole string; it holds no '@' |
| EmailFormat.MatchAtFirstAt | src/pages/Login.jsx:29 | in a match, the '@' is the first and only one |
| EmailFormat.MatchIsValid | src/pages/Login.jsx:29 | every match has no white space, exactly one '@', a non-empty local part and an interior dot after the '@' |
| EmailFormat.ValidIsMatch | src/pages/Login.jsx:29 | every such string has a split into run '@' run '.' run |
| EmailFormat.RegexIffValidFormat | src/pages/Login.jsx:29 | the regular expression accepts exactly the strings `ValidEmailFormat` describes |
| EmailFormat.ValidEmailNotBlankAndNamed | src/pages/Login.jsx:27-31 | an accepted address is never blank, and the part before its '@' is never empty |
| Login.Updated | src/pages/Login.jsx:56 | the edited field takes the new value and the other fields are kept |
| Login.FormErrors | src/pages/Login.jsx:20-38 | one entry per failing field, holding that field's message, and no other key |
| Login.Recorded | src/pages/Login.jsx:21-37 | the three conditional insertions record exactly the messages that are present |
| Login.EmptyErrors | src/pages/Login.jsx:40 | `Object.keys(newErrors).length === 0` holds exactly when no field has an entry |
| Login.NoErrorsIff | src/pages/Login.jsx:39-40 | no error is recorded exactly when all three rules pass |
| Login.DisplayName | src/pages/Login.jsx:48 | the typed name when it is non-empty, otherwise the part of the email before '@' |
| Login.Cleared | src/pages/Login.jsx:57-59 | the edited field no longer shows an error; the keys and every other message are kept |
| Login.CollectErrors | src/pages/Login.jsx:20-37 | the step-by-step checks build exactly `FormErrors` |
| Login.RecordedSteps | src/pages/Login.jsx:21-37 | the three insertion steps compose to `FormErrors` |
| Login.LoginForm.constructor | src/pages/Login.jsx:5-11 | initially sign-in mode, empty inputs and no errors |
| Login.LoginForm.ValidateForm | src/pages/Login.jsx:20-41 | the errors become `FormErrors` of the current state, and the result is true exactly when there are none |
| Login.LoginForm.HandleSubmit | src/pages/Login.jsx:43-52 | validates, and gives a user exactly when the form is valid: the display name and the typed email |
| Login.LoginForm.HandleChange | src/pages/Login.jsx:54-60 | stores the value in the named input and clears that input's shown error, and nothing else |
| Login.LoginForm.ToggleSignUp | src/pages/Login.jsx:209-212 | flips the mode and drops every error |
| Login.NameError | src/pages/Login.jsx:23-25 | 'Name is required' exactly in sign-up mode for a name made only of white space, and no error otherwise |
| Login.EmailError | src/pages/Login.jsx:27-31 | blank gives 'Email is required', a non-blank address outside the accepted format gives 'Invalid email format', and an accepted address gives no error |
| Login.EmailRule | src/pages/Login.jsx:29-31 | in terms of the regular expression: a match gives no error, and a non-blank address it rejects gives 'Invalid email format' |
| Login.PasswordError | src/pages/Login.jsx:33-37 | empty gives 'required', 1 to 5 UTF-16 units 'too short', and 6 or more no error |
| Login.SubmittedUser | src/pages/Login.jsx:47-50 | the user record holds the typed email, keeps a non-empty typed name, and has a non-empty name whenever the email has the accepted format |
| Login.ValidIff | src/pages/Login.jsx:20-41 | the form is valid exactly when the name is not blank (sign-up only), the email matches and the password has at least 6 units |
| Login.SignInIgnoresName | src/pages/Login.jsx:23-25 | in sign-in mode the name never affects the errors |
| Login.SubmittedUserNamed | src/pages/Login.jsx:45-50 | a valid form always submits a non-empty name and the typed email |

## Left out

- `src/services/api.js`, `src/App.jsx` and `src/components/Navbar.jsx` are not part of this model. These are the network calls, the page routing and session state, and the navigation bar.
- Markup, CSS classes, icons and emoji are left out. The model keeps titles, captions, tones (success, warning, error), item order and item values.
- The `%` suffix and `toFixed`-style text formatting are left out; an item holds the value that is shown.
- Score.Percentage: numbers are integers, and `parseFloat` reads an optional sign and a run of decimal digits after leading white space. Fractions, exponents, `Infinity` and non-integer numbers are not modelled, so text such as ".5" or "Infinity", which `parseFloat` reads as a number, is read as NaN here.
- JsValue.GreaterThanZero and JsText.StringToNumber: `Number()` is modelled on integer text only. "1.5", "0x10", "1e2" and "Infinity" are read as NaN here, so `factor.impact > 0` is false for those strings, while the source treats them as positive.
- ResultCard.Render: requires `WellShaped`. Each list field must resolve to an array or to a value whose `length` is not positive, and no factor may be `null`. On other shapes the source throws: `.map` on a non-array with a positive `length`, or `factor.name` on `null`. The model does not render those cases.
- React's refusal to render a plain object as a child is not modelled. Such values are kept as item values.
- JsValue.Lookup: a JSON object with a repeated key is read at the key's first entry.
- ResultCard.KindOf: the source's `titles[type]` also finds names inherited from `Object.prototype`, such as `toString`. The model treats those types as unknown.
- JsValue.Entries: integer-like keys are not moved to the front, as `Object.entries` does for real objects; entries keep their order in the response.
- JsValue.Entries: a response object with a repeated key yields every entry. A parsed JavaScript object keeps one entry, holding the last value at the first key's position.
- JsValue.Entries: a string's entries are indexed by code point. JavaScript indexes them by UTF-16 unit, so a character outside the Basic Multilingual Plane gives two entries there.
- The wrapper element around the section-improvement blocks is left out; the blocks follow the other sections directly.
- `e.preventDefault()` and the event objects are left out. `handleChange` takes the input's name and value directly.
- `onLogin` is a callback in the source. `HandleSubmit` returns the user record it would receive instead.
- Login.LoginForm: React state updates are asynchronous and batched. Each setter is modelled as an immediate assignment to the field.
- Scenarios.PriorityActionsScenario: stops at the improvement report rather than the whole card. The step from report to card is `ResultCardProperties.CleanResponseShowsContent`.
