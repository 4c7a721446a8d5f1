# Campaign generator: prompt builder and form gate

A Dafny model of the core of a small marketing-campaign generator. A web form
collects a campaign brief. The brief is checked and turned into a
`CampaignInput` record, then spliced into a fixed prompt template. That prompt,
with a fixed preamble in front, is sent to a hosted language model, and the
answer is kept in the page's session for display and download.

The model has three modules:

- `strings.dfy`, module `Strings`. Substring occurrence (Python's `sub in s`),
  `sep.join(parts)` and `s.split(sep)`. It also holds the lemmas that relate
  them: the split/join round trip, and the lemmas used to show that gluing
  texts creates no new occurrence of a substring.
- `generator.dfy`, module `Generator` (`src/generator.py`). The
  `CampaignInput` record and the template, with every literal line written
  out. `BuildPrompt` is `_build_prompt`; `FullPrompt` is the text `generate`
  sends to the model. The lemmas cover the channel list, the optional
  context block, the order of the sections, the five task headers, fields
  spliced in verbatim, and when the `ADDITIONAL CONTEXT` marker can appear.
- `app.dfy`, module `App` (`app.py`). The ordered validation chain, with the
  brief it builds (an empty context becomes `None`). It also holds the
  session state as a class: a method for a click on "Generate Campaign", and
  the download file name.

The model's answer, which comes from a network call, is a parameter of
`App.Session.Generate`. It is either the generated text or the description of
the exception that was raised.

## Model

| member | source | states |
|---|---|---|
| Strings.Join | src/generator.py:30 | `", ".join`: an empty list gives the empty string, a single part gives that part, and the length is the parts' total plus one separator between each two neighbours |
| Strings.SplitJoinRoundTrip | src/generator.py:30 | splitting a join on its own separator gives the parts back, for a non-empty list whose parts do not contain a separator that cannot overlap itself |
| Generator.ChannelText | src/generator.py:30 | the channels joined with `", "`; its properties are carried by `Strings.Join` (empty, single and length cases) and `Generator.ChannelListRoundTrip` (splitting gives the list back) |
| Generator.ChannelListRoundTrip | src/generator.py:30 | the channel text splits on `", "` back into exactly the channel list, in order, when the list is non-empty and no channel contains `", "` |
| Generator.ContextBlock | src/generator.py:47 | the optional block is empty exactly when the context is `None` or `""`; otherwise it is the `## ADDITIONAL CONTEXT` heading, a newline and then the context text unchanged |
| Generator.EmptyContextIsNoContext | src/generator.py:47 | a brief with context `None` and the same brief with context `""` build the same prompt |
| Generator.FullPrompt | src/generator.py:86-92 | the text sent to the model is the fixed preamble followed by exactly the built prompt, so the prompt is a suffix of it |
| Generator.BuildPrompt | src/generator.py:27-81 | `_build_prompt`: the brief spliced into the template; its properties are carried by `SectionsInOrder` (headings in order), `TaskHeadersPresent` (five output headers in order), `ChannelListAppearsTwice`, `FieldsSplicedVerbatim` (every field unchanged after its label) and `ContextMarkerIffContext` (the context heading appears exactly when there is context) |
| Generator.SectionsOpenWithHeadings | src/generator.py:35-51 | each section starts with its heading, the context block with `## ADDITIONAL CONTEXT` when there is context, and the task section has `## YOUR TASK` right after the horizontal rule |
| Generator.SectionsInOrder | src/generator.py:32-53 | every prompt has BRAND & PRODUCT, TARGET AUDIENCE, CAMPAIGN DETAILS and YOUR TASK headings at strictly increasing positions; with context, the context heading lies between the details and the task |
| Generator.TaskSectionHeaders | src/generator.py:49-79 | whatever the channel list, the task section holds the five output headers (1. CAMPAIGN STRATEGY … 5. CONTENT CALENDAR) in increasing positions |
| Generator.TaskHeadersPresent | src/generator.py:55-75 | every prompt, for any input, holds the five output headers in order |
| Generator.ChannelListAppearsTwice | src/generator.py:44-61 | the channel text appears after `**Channels:** ` and again after `For each channel (`, the first occurrence ending before the second begins |
| Generator.FieldsSplicedVerbatim | src/generator.py:36-47 | brand, product, audience, goal, channel text and tone each appear in the prompt unchanged right after their label, and so does the context after its heading when there is one |
| Generator.BrandSectionMarkerFree | src/generator.py:35-37 | the brand section cannot contain `ADDITIONAL CONTEXT` unless the brand name or product does |
| Generator.AudienceSectionMarkerFree | src/generator.py:39-40 | the audience section cannot contain the marker unless the audience text does |
| Generator.ChannelTextMarkerFree | src/generator.py:30 | joining channels free of the marker with `", "` does not create it |
| Generator.DetailsSectionMarkerFree | src/generator.py:42-45 | the details section cannot contain the marker unless the goal, channel text or tone does |
| Generator.TaskSectionMarkerFree | src/generator.py:49-79 | the task section cannot contain the marker unless the channel text does |
| Generator.ContextMarkerWithContext | src/generator.py:47 | a non-empty context always puts `ADDITIONAL CONTEXT` into the prompt, whatever the other fields are |
| Generator.ContextMarkerWithoutContext | src/generator.py:32-80 | without context, and with no field containing it, the prompt does not contain `ADDITIONAL CONTEXT` |
| Generator.ContextMarkerIffContext | src/generator.py:47 | with no field containing the marker, the prompt contains `ADDITIONAL CONTEXT` if and only if the context is non-empty |
| Generator.BrewMateMentions | src/generator.py:27-81 | for the BrewMate brief the prompt contains "BrewMate", "Instagram, Email" and "Playful & Witty" |
| Generator.BrewMateWithoutContextHeading | src/generator.py:27-81 | for the BrewMate brief, which has no context, the prompt does not contain `ADDITIONAL CONTEXT` |
| App.Validate | app.py:139-159 | a form passes exactly when no check fails; otherwise the reported error's check fails and every earlier check passes; a missing key is reported before anything else; a passing form has a key, a non-empty brand, product, audience and channel list, and becomes the brief with its fields copied and the context normalised |
| App.ReportedErrorIsFirstFailure | app.py:139-148 | an error is reported if and only if its check fails and all the checks before it pass |
| App.ErrorMessage | app.py:140-148 | the message shown for each rejected form, the literal of its branch; `App.ErrorMessagesDistinct` shows each reason has its own message and `App.Session.Generate`'s ensures show the rejected form's message is the one returned |
| App.ErrorMessagesDistinct | app.py:139-148 | two rejection reasons share a message only if they are the same reason |
| App.GenerationFailureMessage | app.py:172 | the message shown when the model call raises, `Error generating campaign: ` followed by the exception text; `App.Session.Store` and `App.Session.Generate` state that this is the error returned and that the session is then unchanged |
| App.OptionalContext | app.py:158 | an empty context text becomes `None`; a non-empty one is passed on unchanged |
| App.OptionalContextKeepsPrompt | app.py:158 | normalising the context does not change the prompt built from the brief |
| App.Session.constructor | app.py:175 | a new session holds no campaign and no brief |
| App.Session.Store | app.py:163-172 | after a successful generation the campaign text and its brief are both stored; after a failure the error message is returned and the session is unchanged; both keep the invariant that campaign and brief are stored together and the brief passed validation |
| App.Session.Generate | app.py:137-172 | a rejected form returns its message, sends nothing and changes nothing; a valid form sends the preamble plus the prompt of its brief, then stores or reports the model's outcome as `Store` does |
| App.Session.DownloadFileName | app.py:190 | whenever a campaign is stored, the file name is the stored brand name followed by `_campaign.md`; the brand name is non-empty, so the name is longer than the suffix |

## Left out

- The Gemini client (`genai.configure`, `GenerativeModel`, `generate_content`, `response.text`) is a network call. Its result is the `GenerationOutcome` parameter of `App.Session.Generate`. Any exception becomes `ServiceError` with its message.
- The generation settings (temperature 0.8, 3000 output tokens) are provider configuration and are not modelled.
- Loading the key from the environment and the `.env` file is I/O. The key reaches the model as `Option<string>`: without an environment key it is whatever the sidebar field held, so a missing key is `Some("")`; `None` is accepted as missing too and treated the same way.
- The Streamlit page is not modelled: page setup, styling, widgets, columns, spinner, the Markdown display, the download button and the footer. Only the file-name formula is kept.
- The option lists of the goal, channel and tone widgets are not modelled. The brief treats goal, tone and channels as free text, as the `CampaignInput` record does.
- Pydantic's run-time type checks on `CampaignInput` are not modelled. The record is a plain datatype.
- Generator.ContextMarkerWithoutContext and Generator.ContextMarkerIffContext require that no field contains `ADDITIONAL CONTEXT`. Fields are spliced in verbatim, so without that condition the claim is false.
- Strings.SplitJoinRoundTrip and Generator.ChannelListRoundTrip require a non-empty channel list. Joining an empty list gives `""`, which splits into `[""]`, not `[]`.
