# AgroVita landing page: lead submission model

A Dafny model of the one piece of behaviour in the AgroVita Organics landing
page (`src/App.jsx`) beyond markup: the lead-submission state machine. Both lead
forms (the hero "Notify Me" form and the contact "Send Inquiry" form) call one
`sendEmail` handler. That handler:

- builds the relay's template parameters from the submitted form, using
  fallback defaults for empty fields;
- awaits two email-relay sends one after the other: the admin alert, then the
  user acknowledgment;
- on success, sets the success flag of the form that was submitted and resets
  that form;
- clears the shared `isSubmitting` flag in every case.

Beside it, the model covers the hero carousel tick, the "New Inquiry" dismiss,
the language and role toggles, and the `content[lang]` lookup.

Modules:

- `Payload` (`payload.dfy`): the JavaScript `||` defaults and `BuildParams`.
  A form field is an `Option<string>`. `None` is what `FormData.get` returns
  (`null`) for an input the form lacks.
- `Relay` (`relay.dfy`): the ordered sends of one submission. `Dispatch` gives
  the calls made, depending on whether the admin send succeeded.
- `Carousel` (`carousel.dfy`): the three gallery slides, the successor step and
  its iteration `TickN`.
- `Content` (`content.dfy`): the language key `{En, Hi}` and a total lookup of
  the table entries the forms show.
- `App` (`app.dfy`): class `Page`. Its fields are the component's state:
  `lang`, `userType`, `activeSlide`, `isSubmitting`, `heroSuccess`,
  `contactSuccess`, and the current contents of each form's inputs. Its methods
  are the event handlers.

The relay (`emailjs.send`) is a foreign call. It is modelled as two booleans
passed to `SendEmail`: `adminOk` and `userOk` say whether each awaited send
resolves. When `adminOk` is false, the second send is never made and `userOk`
is never read.

What the script does and does not do:

- It performs no validation and no configuration check. The email `type`,
  the `required` markers and the 10-digit phone `pattern` are enforced by the
  browser only (`src/App.jsx:184`, `src/App.jsx:238-241`).
- The two sends are sequential `await`s. A failed admin send throws before the
  user send is made.
- `isSubmitting` is one flag shared by both forms. Each form has its own
  success flag.
- On failure only `alert` runs. No error state is stored, and the inputs are
  left as they were.

## Model

| member | source | states |
|---|---|---|
| Payload.BuildParams | src/App.jsx:57-65 | `form_type`, `email` and `user_role` are passed through unchanged; `full_name` falls back to "Interested User", `phone` and `city` to "Not provided", `message` to "User requested launch notification."; each non-empty input is kept verbatim; the four defaulted fields are never empty |
| Payload.AbsentLikeEmpty | src/App.jsx:59-63 | a missing optional input and an empty one produce identical parameters |
| Payload.EmailNotDefaulted | src/App.jsx:60 | no default is applied to `email`: a missing email input and an empty one produce different parameters |
| Payload.DefaultMeansMissingOrLiteral | src/App.jsx:59-63 | each of `full_name`, `phone`, `city` and `message` shows its default exactly when the input was absent, empty, or literally the default text |
| Payload.FillIdempotent | src/App.jsx:57-65 | filling defaults into already-filled parameters changes nothing |
| Relay.Dispatch | src/App.jsx:66-68 | one submission makes one or two sends; the first is the admin template; the user template is sent second, and only when the admin send succeeded; every send carries the same parameters |
| Relay.UserSendFollowsAdminSuccess | src/App.jsx:67-68 | any user-template send is the second call and is preceded by the admin send, which succeeded |
| Carousel.Next | src/App.jsx:47 | the successor index is always within the 3-item gallery; it is `prev + 1` below the last slide and wraps to 0 after it |
| Carousel.TickNAdvances | src/App.jsx:45-50 | `k` ticks from a valid index advance it by `k` modulo the gallery length |
| Carousel.TickNInRange | src/App.jsx:47 | after any number of ticks the index stays in `[0, 3)` |
| Carousel.TickNPeriodic | src/App.jsx:17-21 | after any whole number of rounds of 3 ticks the index is back at its starting value |
| Content.Lookup | src/App.jsx:79-108 | `content[lang]` is total over `{en, hi}`; both tables give the same contact e-mail address and phone number, and non-empty button and success texts |
| App.RoleName | src/App.jsx:235-236 | the role sent as `user_role` is "farmer" or "dealer", "farmer" exactly for the farmer toggle |
| App.Blank | src/App.jsx:71 | after `form.reset()` every input the form has reads as `""` and the hero form's missing names (all but `email`, src/App.jsx:184) stay absent (`null`); so nothing optional is present after a reset |
| App.Page.constructor | src/App.jsx:24-32 | on mount: language `en`, role `farmer`, slide 0, not submitting, neither success panel shown, both forms empty; the page invariant holds (slide in range, no submission in flight, each form holding the inputs it has) |
| App.Page.CurrentSlide | src/App.jsx:195 | the hero image (its `url`) comes from an item of the gallery, given the index invariant |
| App.Page.Enter | src/App.jsx:183-184 | typing into a shown form (the hero email input, or the contact inputs at src/App.jsx:238-242) changes only that form's inputs, which keep the shape of that form's fields |
| App.Page.Post | src/App.jsx:67-68 | a relay call is made only while `isSubmitting` is set, and carries the given template and parameters |
| App.Page.SendEmail | src/App.jsx:52-77 | the sends made are those of `Dispatch` on the parameters built from the submitted form and the current `userType`; each send goes through `Page.Post`, which requires `isSubmitting`, so the flag is set during every send, and it is false afterwards; on double success `formType == "Launch Notification"` sets `heroSuccess`, any other `formType` sets `contactSuccess`, the other flag is unchanged, and the submitted form is reset; when the admin send fails exactly one send is made and both flags and the inputs are unchanged, whatever `userOk` is; on any failure both flags and the entered inputs are unchanged; nothing else changes |
| App.Page.OnHeroSubmit | src/App.jsx:178-183 | the hero form, shown only while `heroSuccess` is false, submits as "Launch Notification": success sets only `heroSuccess` and resets only the hero form |
| App.Page.OnContactSubmit | src/App.jsx:226-233 | the contact form, shown only while `contactSuccess` is false, submits as "Inquiry": success sets only `contactSuccess` and resets only the contact form |
| App.Page.Tick | src/App.jsx:46-48 | one interval tick sets `activeSlide` to `Carousel.Next` of its old value and keeps it a valid gallery index |
| App.Page.NewInquiry | src/App.jsx:226-230 | "New Inquiry", on the contact success panel, hides the panel; the contact form is mounted again with empty inputs; nothing else changes |
| App.Page.SetLang | src/App.jsx:162-163 | the language buttons set the language; the shown text becomes that language's table and the contact details stay the same |
| App.Page.SetUserType | src/App.jsx:233-236 | the role buttons inside the shown contact form set `userType` |
| App.HeroSignupScenario | src/App.jsx:183-184 | on a fresh page, an e-mail-only hero sign-up whose sends both succeed makes exactly two sends (admin then user) with identical parameters: "Launch Notification", "Interested User", the address, "Not provided" twice, the default message and "farmer" |
| App.CarouselFromMount | src/App.jsx:26-50 | from mount, three interval ticks show slides 0, 1, 2 and then slide 0 again |

## Left out

- The relay calls themselves, with their service id, template ids and public key (`src/App.jsx:12-15`). They are foreign network I/O, so they appear only as the `adminOk` and `userOk` outcomes and the `Template` tags.
- Interleaving: each `SendEmail` call runs to completion, so between events `isSubmitting` is false (part of `Page.Valid`), and nothing can happen while the two sends are pending. In the page, a second submit is blocked only by the disabled buttons (markup), and the carousel tick, the language and role toggles and typing can all run during the sends. The model does not capture that text typed during the sends is also wiped by `form.reset()` on success.
- `alert(...)` on failure, `e.preventDefault()` and the `FormData` extraction are DOM side effects. Form contents are held as `Page` fields instead, and `Enter` stands for the browser's text entry.
- The browser-only input constraints (`required`, `type="email"`, `pattern="[0-9]{10}"`). No script code checks them.
- The welcome popup timer and the cursor tracking (`src/App.jsx:34-43`) are timers and DOM listeners. The carousel's 5-second interval is also left out: only its callback is modelled, as `Tick`.
- The WhatsApp message's `encodeURIComponent` (`src/App.jsx:109`) is a call to a builtin.
- All JSX markup and animation, and `src/components/About.jsx`, which is a static feature list.
- Content.Lookup: only the tag, button, success and contact entries of the text table are modelled. The tagline, sub-heading, form title, placeholders, role labels and address are left out.
