# AI Website Generator: a verified model of its core

The AI Website Generator takes a short business description and turns it into a single-page React website. The description has a name, an industry, a target audience, a colour theme and a list of sections.

The server checks the request and builds a prompt from it. It asks a chat-completion model for the code, strips anything unsafe or unwanted from the reply, and answers with a status and a JSON body.

The browser page shows the returned code in a sandboxed frame. In demo mode, or when the AI service is unavailable, the page falls back to a locally generated mock site.

This project models that core in Dafny and proves properties of the model. The modules are:

- `JsText`: the JavaScript string operations the code relies on. These are `trim`, `toLowerCase` (for ASCII letters), `includes`, `join` and concatenation. The module also has lemmas about substrings and subsequences.
- `Json`: the JavaScript values a request body can hold. It covers truthiness, property access, `length`, string conversion, the TypeError that conversion throws for an object owning a "toString" key, and `Number` with its rounding to the nearest double where a value is compared with an integer bound.
- `Pattern`: the regular expressions the code uses, written as sequences of atoms, with the global `replace(…, "")`. A match is leftmost. Runs are greedy. `.*?` is lazy and backtracks into the rest of the pattern. The lemmas show that deleting matches only ever removes characters.
- `Sanitizer`: `sanitizeCode`. It is written twice:
  - as a method that reassigns `cleaned` thirteen times and then trims it;
  - as the function that specifies that method.
- `Validator`: `validateInput`. The ten checks run in order, and the first one that fails supplies the error message. The conversion of a colour object's `length` inside the colour check is an eleventh step, placed just before the comparison, since it can throw on its own.
- `PromptBuilder`: `buildPrompt`. It includes the section-list default, the colour default, and the `includes('blue')` choice of example colours.
- `OpenAiService`: `callOpenAI`. The SDK call is an input: either the content it returned or the error it threw, with its status. The module maps failures to messages.
- `GenerateController`: `generateWebsite`. It is a method that returns the status and body it sends, plus the completion request it made.
- `MockGenerator`: `generateMockWebsite`. It covers:
  - the colour families;
  - the e-mail slug;
  - the six optional section blocks;
  - the footer.

  The lemmas are proved for any template text, and the module's `Template` constant holds the file's own text.
- `BusinessForm`: the form record, field updates and section toggling. The `Form` class holds the form state.
- `App`: the page state as a class. It covers:
  - the settings kept in local storage;
  - `handleGenerate` with demo mode and automatic fallback;
  - the error-message and API-problem classification;
  - the two toggles.
- `PreviewWindow`: removal of markdown fences, and the HTML page that hosts the code. The `Preview` class holds the component's error banner and frame key.

## Model

| member | source | states |
|---|---|---|
| Sanitizer.Sanitize | server/utils/sanitizer.js:6-49 | A missing, empty or non-string argument fails with the "Invalid code" message. A success is a string that is trimmed and at least 50 characters long, and it is a subsequence of the input: nothing is ever added. Every failure is one of the two messages. |
| Sanitizer.SanitizeCode | server/utils/sanitizer.js:6-49 | The thirteen in-place reassignments of `cleaned`, then the trim and the length check, compute exactly `Sanitize`. |
| Sanitizer.PassesAreNonEmpty | server/utils/sanitizer.js:14-38 | None of the thirteen patterns can match the empty string, so every match deletes at least one character. |
| Sanitizer.StripAllIsSubsequence | server/utils/sanitizer.js:11-38 | Running the passes in order leaves a subsequence of the input. |
| Sanitizer.StripAllNoMatch | server/utils/sanitizer.js:11-38 | If no pattern matches anywhere in the text, the passes leave it unchanged. |
| Sanitizer.SanitizeUnchanged | server/utils/sanitizer.js:6-49 | Code that is already trimmed, is at least 50 characters long and contains no match of any pattern is returned as it is. |
| Sanitizer.SanitizeTooShortIff | server/utils/sanitizer.js:41-46 | For a non-empty string, the "too short" error happens exactly when the stripped and trimmed text is under 50 characters. Otherwise the result is that text. |
| Sanitizer.InvalidCodeMentionsInvalid | server/utils/sanitizer.js:7-9 | Rejecting the argument gives a message that contains "Invalid". |
| Pattern.ClassRun | server/utils/sanitizer.js:18-26 | A `\s`/`\w` run is maximal: all its characters are in the class, and the next character is not. |
| Pattern.MatchAt | server/utils/sanitizer.js:14-38 | A match lies inside the text, and a leading literal is really present at the match position. |
| Pattern.ReplaceAllIsSubsequence | server/utils/sanitizer.js:14-38 | `replace(re, "")` returns a subsequence of its input and is never longer. |
| Pattern.ReplaceAllNoMatch | server/utils/sanitizer.js:14-38 | A pattern that matches nowhere leaves the text unchanged. |
| Pattern.ReplaceAllDeletesEveryMatchStart | server/utils/sanitizer.js:14-38 | With a pattern that never matches the empty string, a position where a match starts never survives, and the result has exactly as many characters as the positions that survive. |
| JsText.TrimSpec | server/utils/sanitizer.js:41 | `trim` returns a contiguous slice of its input with whitespace at neither end, and it removes only whitespace. |
| JsText.TrimEmptyIffBlank | server/utils/validator.js:15 | `s.trim().length === 0` holds exactly when every character is whitespace. |
| JsText.ToLowerIdempotent | src/App.jsx:62-69 | Lower-casing twice is the same as lower-casing once. |
| Json.JoinStrings | server/utils/promptBuilder.js:12-14 | Joining an array of strings is `Join` over their texts. |
| Json.IntegerGreaterThan | server/utils/validator.js:45 | For an integer bound below 2^52, an integer compares above it after rounding to a double exactly when it is greater. |
| Json.FractionToNumber | server/utils/validator.js:45 | `Number` reads a string "a.b" of digits as the exact decimal with the digits of a and b, with as many places as b has digits. |
| Json.FiftyPlusTenPowerRounding | server/utils/validator.js:45 | The double nearest to 50 + 10^-n is above 50 exactly when n ≤ 14; from n = 15 on it is 50 itself. |
| Validator.ValidateInput | server/utils/validator.js:10-52 | `validateInput` passes exactly when the body is a non-null object and all of the following hold: <br>• name, industry and audience are non-blank strings; <br>• sections is an array; <br>• name and industry have at most 100 characters; <br>• audience has at most 200 characters; <br>• a truthy colour is not longer than 50, where `length > 50` is JavaScript's comparison (a string's or array's length, or an object's `length` property converted by `Number` and rounded to the nearest double); <br>• there are at most 10 sections. <br>A colour object whose `length` owns a "toString" key (directly, or inside an array) fails with the engine's "Cannot convert object to primitive value" TypeError instead. |
| Validator.ValidateInputFirstFailure | server/utils/validator.js:9-51 | The error thrown is that of check k exactly when check k fails and every earlier check holds. |
| Validator.ValidateInputIsFirstFailure | server/utils/validator.js:9-51 | The chain of `if … throw` is the first-failure search over the ten checks and the conversion step. |
| Validator.FirstFailureFromIff | server/utils/validator.js:9-51 | Searching from check i gives the message of check k exactly when k is the first failing check from i. |
| Validator.MessagesDistinct | server/utils/validator.js:12-49 | The eleven messages are pairwise different, so the message identifies the rule that failed. |
| Validator.CheckMessageOpening | server/utils/validator.js:12-49 | Every message of the ten checks starts with "Invalid input: ". The conversion error is the only other one, and it does not contain "Invalid". |
| Validator.ValidationFailureMentionsInvalid | server/utils/validator.js:9-51 | A rejection by one of the ten checks has a message that starts with "Invalid input: " and so contains "Invalid". The conversion error does not contain "Invalid". |
| Validator.NameLengthBoundary | server/utils/validator.js:32-34 | Once the first five checks pass, a 100-character name does not draw the too-long error and a 101-character name does. |
| Validator.FalsyColorPasses | server/utils/validator.js:45-47 | An absent or falsy colour never triggers the colour-length error or the conversion error: `&&` stops before `length` is read. |
| Validator.ColorLengthConverted | server/utils/validator.js:45 | For an object colour, a `length` of n, of the text of n or of the one-element array [n] converts without error and fails the colour check exactly when n > 50. |
| Validator.ColorLengthRounded | server/utils/validator.js:45 | A `length` of "50." followed by n - 1 zeros and a 1 fails the colour check exactly when n ≤ 14: "50.000000000000001" rounds to 50 and passes. |
| Validator.UnconvertibleColorLengthThrows | server/utils/validator.js:45 | Once the first eight checks pass, a colour object whose `length` is an object with its own "toString" key makes the call throw the conversion TypeError. |
| Validator.ColorCheckReported | server/utils/validator.js:45-47 | When the first eight checks and the conversion pass and the colour check fails, the call throws the colour message. |
| Validator.ConvertedColorLengthRejected | server/utils/validator.js:45-47 | A colour object whose `length` is "51" or [51] (or any integer above 50 in those forms) is rejected as too long once the earlier checks pass. |
| Validator.NameReportedBeforeSections | server/utils/validator.js:15-29 | An object with a missing name and a non-array sections field is reported for the name. |
| PromptBuilder.ColorTheme | server/utils/promptBuilder.js:16 | The theme used is always truthy. |
| PromptBuilder.BuildPrompt | server/utils/promptBuilder.js:11-78 | On a valid request the prompt fails exactly when a section (joined at line 13) owns a "toString" key, or the colour is truthy and either owns one (converted at line 25) or is neither a string nor an array (`includes` at line 52 is not a function). The error is the conversion TypeError in the first two cases and the `includes` TypeError in the last. |
| PromptBuilder.PromptErrorLacksInvalid | server/utils/promptBuilder.js:13-52 | Neither TypeError the prompt can raise is empty or contains "Invalid". |
| PromptBuilder.PromptHasInfoLines | server/utils/promptBuilder.js:21-26 | Any assembled prompt contains the five labelled business lines with the field values verbatim. |
| PromptBuilder.PromptHasRequirements | server/utils/promptBuilder.js:28-37 | Any assembled prompt contains requirements 1–8 followed by requirement 9, which names the sections. |
| PromptBuilder.PromptHasColorLines | server/utils/promptBuilder.js:52-53 | Any assembled prompt declares the example's primary and accent colour. |
| PromptBuilder.PromptHasSectionMentions | server/utils/promptBuilder.js:68-76 | The section list appears in the example's comment and in the closing line. |
| PromptBuilder.PromptContents | server/utils/promptBuilder.js:11-78 | A built prompt contains every business field, requirements 1–9 and the section list in both later places. |
| PromptBuilder.SectionsTextContains | server/utils/promptBuilder.js:12-14 | Every string in the sections array appears in its rendering. |
| PromptBuilder.PromptMentionsSections | server/utils/promptBuilder.js:11-78 | Every requested section name appears in the prompt. |
| PromptBuilder.PromptDefaultSections | server/utils/promptBuilder.js:12-14 | With an empty sections array, the prompt asks for "About, Services, Contact" in the business block and in requirement 9. |
| PromptBuilder.PromptExampleColors | server/utils/promptBuilder.js:52-53 | For a string colour, the prompt is built exactly when the sections convert, and then the example uses the blue pair exactly when the theme contains lowercase "blue"; otherwise it uses the other pair. |
| PromptBuilder.DefaultThemeMentionsBlue | server/utils/promptBuilder.js:16 | The default theme contains "blue". |
| PromptBuilder.AbsentColorGivesBluePair | server/utils/promptBuilder.js:16-53 | Without a colour, the prompt is built exactly when the sections convert, and then it names the default theme and the example uses the blue pair. |
| PromptBuilder.PromptDependsOnlyOnFields | server/utils/promptBuilder.js:11-78 | Two valid requests that agree on the five fields get the same prompt. |
| OpenAiService.Request | server/services/openaiService.js:19-33 | The request uses the configured model and a 4000-token cap. Its two messages are the system message, then the prompt as the user's message. |
| OpenAiService.CallOpenAI | server/services/openaiService.js:17-63 | The call succeeds exactly when the SDK returned truthy content, and the result is that content. |
| OpenAiService.CatchMessage | server/services/openaiService.js:42-62 | The catch block always throws a non-empty message. It starts with "OpenAI API Error: " exactly when the status is not 429, 401 or 403, and then the rest is the original message, or "Unknown error occurred" when that is empty. |
| OpenAiService.FailureMessages | server/services/openaiService.js:42-62 | Every SDK error becomes a failure. Status 429, 401 and 403 each get a fixed message. Any other error gets "OpenAI API Error: " followed by its message, or by "Unknown error occurred" when the message is empty. |
| OpenAiService.MissingContentMessage | server/services/openaiService.js:35-39 | Missing content is rethrown through the catch as "OpenAI API Error: No code generated from OpenAI". |
| OpenAiService.FailureMessageNonEmpty | server/services/openaiService.js:42-62 | Every failure message is non-empty. |
| OpenAiService.InvalidKeyMentionsInvalid | server/services/openaiService.js:51-53 | The rejected-key message contains "Invalid". |
| GenerateController.StatusFor | server/controllers/generateController.js:37 | The status is 400 exactly when the message contains "Invalid", and 500 otherwise. |
| GenerateController.ErrorBody | server/controllers/generateController.js:38-40 | The error body is non-empty and carries the message whenever there is one. |
| GenerateController.GenerateWebsite | server/controllers/generateController.js:12-42 | A successful pipeline gives 200 with the sanitized code and the success message. A failed one gives `StatusFor` and `ErrorBody` of the first error. The completion API is asked, with `Request(prompt)`, exactly when the body is valid and the prompt was built. |
| GenerateController.Pipeline | server/controllers/generateController.js:16-32 | Success happens exactly when the request is valid, the prompt is built, the SDK returned content and the sanitizer accepts it. The code sent is then a trimmed subsequence of the model's string reply, at least 50 characters long. |
| GenerateController.InvalidRequestStatus | server/controllers/generateController.js:14-37 | An invalid body fails with the validator's message before any API call: status 400 for the ten checks, 500 for the conversion error. |
| GenerateController.PromptFailureIs500 | server/controllers/generateController.js:20-37 | A valid body whose prompt cannot be built fails with the prompt's TypeError and status 500, before any API call. |
| GenerateController.RejectedKeyIs400 | server/services/openaiService.js:51-53 | An SDK error with status 401 is answered with the invalid-key message and status 400. |
| GenerateController.UpstreamInvalidMessageIs400 | server/services/openaiService.js:61 | Any other SDK error whose own message contains "Invalid" is wrapped and also answered with 400. |
| GenerateController.NonStringContentIs400 | server/utils/sanitizer.js:7-9 | Truthy content that is not a string fails the sanitizer's argument check and is answered with 400. |
| GenerateController.ErrorMessagesNonEmpty | server/controllers/generateController.js:38-40 | Every error on the way has a message, so the fallback text is never sent. |
| MockGenerator.ColorsFromFirstFamily | src/services/mockGenerator.js:10-21 | The primary and accent colour are the palette of the first family (blue, purple, green, red) whose name the lower-cased colour contains. The default is the blue palette. |
| MockGenerator.ColorsIgnoreCase | src/services/mockGenerator.js:10-21 | The colour choice does not depend on letter case. |
| MockGenerator.EmailSlug | src/services/mockGenerator.js:175 | The e-mail slug is a subsequence of the lower-cased name. |
| MockGenerator.EmailSlugKeepsSpaces | src/services/mockGenerator.js:175 | A name without a backslash gives exactly its lower-cased self: the pattern deletes `\` followed by one or more "s" characters, not whitespace. |
| MockGenerator.GenerateMockWebsite | src/services/mockGenerator.js:7-24 | The output starts by declaring the function App and binding `h`. |
| MockGenerator.MockHasSelectedBlocks | src/services/mockGenerator.js:85-181 | Every selected section's block, filled with the business data, appears in the output. |
| MockGenerator.MockDependsOnSelectionOnly | src/services/mockGenerator.js:7-192 | The output depends on the four text fields and on which of the six known sections are selected, not on order, duplicates or unknown names. |
| MockGenerator.SelectingInsertsBlock | src/services/mockGenerator.js:85-181 | Selecting one more section inserts exactly that section's block at its fixed place and changes nothing else. |
| MockGenerator.MockShowsBusiness | src/services/mockGenerator.js:78-187 | The name appears in the heading and in the copyright line, and the audience appears in the footer. |
| MockGenerator.ContactShowsEmail | src/services/mockGenerator.js:170-181 | With Contact selected, the output shows the contact address built from the e-mail slug. |
| MockGenerator.SectionNamesDistinct | src/services/mockGenerator.js:85-170 | The six section names looked for are pairwise different. |
| BusinessForm.WithField | src/components/BusinessForm.jsx:28-31 | A field update changes that field and nothing else. |
| BusinessForm.Without | src/components/BusinessForm.jsx:41 | The filter removes every copy of the name, keeps the order of the rest, and removes nothing else. |
| BusinessForm.Toggle | src/components/BusinessForm.jsx:37-44 | After a toggle the section is in the list exactly when it was not before. Removing it leaves a subsequence of the list; adding it extends the list by one entry and keeps the list as a subsequence. |
| BusinessForm.ToggleMembership | src/components/BusinessForm.jsx:37-44 | After a toggle, the section is selected exactly when it was not before. Every other section keeps its state. |
| BusinessForm.ToggleTwiceRestores | src/components/BusinessForm.jsx:37-44 | Toggling an unselected section appends it, and toggling it again gives back the original list. |
| BusinessForm.TogglePreservesNoDuplicates | src/components/BusinessForm.jsx:37-44 | Toggling keeps the selected list free of duplicates. |
| BusinessForm.ToggleStaysInList | src/components/BusinessForm.jsx:4-44 | Toggling buttons of the list keeps every selected section in the list. |
| BusinessForm.Form.constructor | src/components/BusinessForm.jsx:16-22 | The form starts with every field empty and no sections. |
| BusinessForm.Form.HandleChange | src/components/BusinessForm.jsx:28-31 | The state becomes the old state with that one field set. |
| BusinessForm.Form.ToggleSection | src/components/BusinessForm.jsx:37-44 | The state becomes the old state with the section toggled. |
| BusinessForm.Form.TagClass | src/components/BusinessForm.jsx:127 | A button is "tag active" exactly when its section is selected, and "tag" otherwise. |
| BusinessForm.Form.HandleSubmit | src/components/BusinessForm.jsx:50-53 | The submitted data is the current form state. |
| App.ErrorMessage | src/App.jsx:55-58 | The message shown is the first non-empty of the response's error, the error's message and the default. It is never empty. |
| App.IsApiIssue | src/App.jsx:60-75 | An error whose status is 429, 403, 500, 502 or 503 is an API problem whatever its message. |
| App.IsApiIssueIff | src/App.jsx:60-75 | An error is an API problem exactly when its lower-cased message contains one of the seven keywords or its status is one of 429, 403, 500, 502, 503. |
| App.IsApiIssueIgnoresCase | src/App.jsx:62-69 | Classification is the same for a message and for its lower-cased form. |
| App.ThemeName | src/App.jsx:21-22 | The stored theme is "dark" exactly in dark mode. |
| App.App.constructor | src/App.jsx:10-27 | The page starts with no code, no spinner and no error. The settings are read from storage, the effects store them back, and storage agrees with the state. |
| App.App.HandleGenerate | src/App.jsx:29-94 | In demo mode the page shows the mock with no server call. Otherwise it shows either the server's code; or, on an API problem, the fallback notice with the mock; or else the error message with no code. The spinner is off at the end, and the settings are untouched. |
| App.App.ToggleDarkMode | src/App.jsx:110 | The button flips dark mode. The theme effect (lines 20-23) stores it and sets the body attribute, and storage stays in agreement with the state. |
| App.App.ToggleDemoMode | src/App.jsx:140 | The button flips demo mode. The effect (lines 25-27) stores it, and storage stays in agreement with the state. |
| PreviewWindow.Cleaned | src/components/PreviewWindow.jsx:48-54 | The cleaned code is a subsequence of the code. Code whose trimmed form does not start with a fence is only trimmed. |
| PreviewWindow.CleanCode | src/components/PreviewWindow.jsx:48-54 | The trim and the two replacements, done in place, compute `Cleaned`. |
| PreviewWindow.FencedBlockUnwrapped | src/components/PreviewWindow.jsx:52-53 | A "```javascript" fenced block whose body holds no fence comes out as the body and its final newline. |
| PreviewWindow.FirstPassUnwraps | src/components/PreviewWindow.jsx:53 | The first replacement removes exactly the opening fence with its tag and the closing fence. |
| PreviewWindow.SecondPassKeeps | src/components/PreviewWindow.jsx:53 | The second replacement then has nothing left to remove. |
| PreviewWindow.JsxTagLeavesX | src/components/PreviewWindow.jsx:52-53 | A "```jsx" fence loses only "```js", so the cleaned code starts with "x". |
| PreviewWindow.HtmlInjective | src/components/PreviewWindow.jsx:57-136 | Different cleaned code gives a different page. |
| PreviewWindow.Html | src/components/PreviewWindow.jsx:57-136 | The page contains the cleaned code verbatim. |
| PreviewWindow.BlankCodeCleansToEmpty | src/components/PreviewWindow.jsx:49 | Code made only of whitespace cleans to nothing. |
| PreviewWindow.Preview.constructor | src/components/PreviewWindow.jsx:11-18 | After mounting there is no error, and the key is 1 (0, then the first run of the effect). |
| PreviewWindow.Preview.CodeChanged | src/components/PreviewWindow.jsx:14-18 | A changed `code` prop clears the error and advances the key by one. An unchanged prop leaves both as they are. |
| PreviewWindow.Preview.FrameFailed | src/components/PreviewWindow.jsx:167 | A frame error sets the banner text and changes nothing else. |
| PreviewWindow.Preview.Render | src/components/PreviewWindow.jsx:20-158 | Empty code gives the placeholder. Otherwise the view is a frame that is scripts-only, uses the current key and banner, and has the page around the cleaned code as its document. |

## Left out

- Strings are sequences of Unicode scalar values. JavaScript measures `length` in UTF-16 code units, so characters outside the Basic Multilingual Plane count once here and twice in the source.
- JsText.ToLower: folds ASCII letters only, where `toLowerCase` folds all of Unicode.
- `\s` in the patterns and in `trim` is the JavaScript whitespace set listed in `JsText.IsSpace`. `\w` is ASCII letters, digits and `_`.
- App.App.HandleGenerate: the 1.5 second timer is taken to have fired.
  - The intermediate states while the spinner shows are not stated.
  - A second click while a timer is pending is not modelled.
  - The mock is computed before the timer rather than inside its callback. This is the same value, because the mock is a pure function of the form data.
- The network is not modelled: the HTTP request, axios and its 60-second timeout, and the OpenAI SDK. The outcome of the remote call is an input.
  - In `src/services/api.js` the client rethrows a plain `Error` carrying only the server's error text. The error the page catches therefore has no `response` or `status`, so the status test in `isAPIIssue` never fires in practice.
  - `App.CaughtError` keeps the three fields the page reads, as the page's code reads them.
- OpenAiService.Request: the sampling temperature (0.7) is left out.
- Json.ToJsString: numbers in a request body are integers. Fractions such as 50.5 are not modelled, and neither are JavaScript's exponent form for integers of 10^21 and above ("1e+21") and its loss of precision above 2^53. This affects how a numeric section is joined into the prompt and how a numeric `length` compares.
- Json.GreaterThan: the rounding of `Number` to a double is modelled for comparisons with integer bounds from 1 to 2^52 - 1, which covers every bound the source uses. Rounding is not modelled for any other arithmetic, and numbers are not otherwise limited in range.
- Json.Convertible: conversion is modelled for parsed JSON only. There an own "toString" or "valueOf" key never holds a function, so conversion throws exactly when an object owns "toString" (an own "valueOf" is skipped). Prototype changes and getters are not modelled.
- `console` logging is left out, as are `dotenv`, the Express app, the route and the rate limiter (`server/server.js`, `server/routes/generateRoute.js`, `server/middleware/rateLimiter.js`).
- The markup and styles of the components (headers, buttons, labels, the placeholder card) are left out. Only the state they are driven by, and the document the frame runs, are modelled.
- Loader and ErrorBanner are not part of this model. They only display `loading` and `error`.
- The `code` prop of the preview is a string. An absent prop is taken as "".
- Specific status facts are not stated as lemmas:
  - the rate-limit (429) and access-denied (403) messages, and the "too short" sanitizer message, lack "Invalid" and so get 500;
  - these messages contain none of the page's API keywords except "billing" in the 403 text, so a 429 from the model does not trigger the mock fallback.

  They follow from `StatusFor` and `IsApiIssueIff` applied to the constant texts.
- The sanitizer is not idempotent in general (a deletion can join text into a new match). The model makes no claim either way. It proves only that the output is a subsequence of the input and that clean input is kept.
- The form's section buttons offer five sections. The mock generator also recognises "Gallery", which is reachable only through a request that does not come from the form.
- A colour that is truthy but neither a string nor an array makes `includes` throw a TypeError. Its message lacks "Invalid", so it is answered with 500. The same holds for the conversion TypeError.
