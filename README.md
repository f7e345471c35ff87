# Floating chat widget: a verified model

This project models the behaviour of a floating chat widget written in
TypeScript/React. It covers three parts:

- **The chat widget** (`components/chatbot.tsx`). The model is the class
  `Chatbot.ChatWidget`. It holds the component's nine state fields:
  `isOpen`, `messages`, `inputValue`, `isTyping`, `isMinimized`,
  `isEscalated`, `showPreChatForm`, `preChatData` and `formSubmitted`.
  There is one method per event handler, plus one for the greeting effect.
  The conditions the JSX uses to draw each part of the panel are
  predicates on that state.
  Each handler runs together with the reply to the chat request it makes.
  The outcome of that request is a parameter:
  - the service answered, with or without an `answer`;
  - or the request failed.
  `Step` runs one interaction and then the greeting effect. The effect
  tests "open and no messages", and messages are never removed. So running
  it after every step does the same as React, which runs it only when one
  of its dependencies changes.
- **String helpers** (`src/utils/helpers.ts`), in module `Helpers`:
  - `insertParams` is a method with a loop that pushes one `key=value`
    part per key and then joins the parts with `&`.
  - Its escaping is `encodeURIComponent`, as defined in ECMAScript 2015,
    section 18.2.6.5. This is module `UriComponent`. It writes UTF-8
    octets as `%XX`, as in section 2.1 of RFC 3986.
  - Its partner is `decodeURIComponent` (ECMAScript 2015, section 18.2.6.3).
  - `capitalize` is modelled, and so is the `padStart` formatting of
    `generateRandomId`.
  - The JavaScript string operations these rely on are in module `JsText`:
    `join`, `split`, `Number#toString`, `padStart` and `trim`.
- **Toasts** (`src/components/ui/toast.tsx`), in module `Toasts`:
  - the provider's list of toasts, as class `ToastProvider` with a `seq` field;
  - appending a toast, and removing every toast with a given id;
  - the colours each variant is drawn with;
  - the `useToast` hook's error when no provider is present.

Notes on the code:

- Submitting the pre-chat form does no validation
  (`components/chatbot.tsx:112-125`). It never looks at the answers or at
  the fields' `required` flags. The method
  `Chatbot.RequiredFieldsAreNotChecked` shows this with the host page's
  pre-chat form (`src/app/page.tsx:18-36`): the form is empty and both of
  its fields are required, and the submit is still accepted.
- Escalating (`components/chatbot.tsx:210-224`) posts a fixed notice and
  then sends a fixed text to the ordinary chat service.
- The escalate button is in the panel header (`components/chatbot.tsx:305`),
  so it stays visible while the pre-chat form is up. `Step` proves that
  escalating there still adds only bot turns, no user turn.

## Model

| member | source | states |
|---|---|---|
| Chatbot.ResolveProps | components/chatbot.tsx:43-62 | each prop that is given is used; each prop that is left out takes its default (escalation defaults to on, pre-chat form to off) |
| Chatbot.ReplyText | components/chatbot.tsx:143-168 | the bot reply is a non-empty answer unchanged; a missing or empty answer gives the processing apology; a failure gives the connection apology; the reply is never empty |
| Chatbot.IdsDistinct | components/chatbot.tsx:77-178 | when ids equal positions plus one, no two messages share an id |
| Chatbot.ChatWidget.constructor | components/chatbot.tsx:63-71 | the widget mounts closed, not minimized, not escalated, with no messages, no input, no form data and the form not shown or submitted |
| Chatbot.ChatWidget.WelcomeEffect | components/chatbot.tsx:74-84 | when open with no messages, the messages become exactly [welcome tagline, id 1, bot], and the form is shown iff enabled and not submitted; a non-empty list and the form flag are left untouched |
| Chatbot.ChatWidget.HandleToggleChat | components/chatbot.tsx:92-95 | `isOpen` is negated and `isMinimized` is false afterwards; nothing else changes |
| Chatbot.ChatWidget.HandleToggleMinimize | components/chatbot.tsx:97-99 | only `isMinimized` is negated |
| Chatbot.ChatWidget.HandleInputChange | components/chatbot.tsx:101-103 | only the input text is replaced |
| Chatbot.ChatWidget.HandleFormInputChange | components/chatbot.tsx:105-110 | the answer for one field is set and the other answers are kept |
| Chatbot.ChatWidget.HandleSubmitPreChatForm | components/chatbot.tsx:112-125 | always hides the form, marks it submitted and appends exactly one thank-you bot turn; the answers are not inspected |
| Chatbot.ChatWidget.SendMessageToApi | components/chatbot.tsx:127-172 | a completed request appends exactly one bot turn (id = rendered length + 2, text = ReplyText) and leaves `isTyping` false in every outcome |
| Chatbot.ChatWidget.HandleSendMessage | components/chatbot.tsx:174-190 | input that trims to "" changes nothing; otherwise the untrimmed text is appended as one user turn, the input is cleared, and the reply follows; earlier messages are kept |
| Chatbot.ChatWidget.HandleQuickPrompt | components/chatbot.tsx:198-208 | the prompt's query is appended as a user turn, followed by the reply |
| Chatbot.ChatWidget.HandleEscalateToAgent | components/chatbot.tsx:210-224 | `isEscalated` becomes true, and the fixed notice and then one bot reply are appended, with no user turn |
| Chatbot.ChatWidget.Step | components/chatbot.tsx:74-224 | preserves the invariant: ids equal positions plus one, the form is shown only while enabled and unsubmitted, and no request is pending. Messages are only appended. Escalation and submission never revert. While the form is shown, no offered interaction appends a user turn. Once escalated, the escalate button stays hidden. Once there are more than two messages, the quick prompts stay hidden |
| Chatbot.ChatWidget.PanelShown | components/chatbot.tsx:283 | is `isOpen`, the guard around the panel at :283; `Offered` uses it to offer minimizing only while the panel is drawn |
| Chatbot.ChatWidget.PanelBodyShown | components/chatbot.tsx:347 | is `isOpen && !isMinimized`, the guard at :347 |
| Chatbot.ChatWidget.PreChatFormShown | components/chatbot.tsx:349-350 | is the body guard and `showPreChatForm`, the true arm of the ternary at :349 |
| Chatbot.ChatWidget.MessageListShown | components/chatbot.tsx:349-352 | is the body guard and `!showPreChatForm`, the false arm of the ternary at :349; `PreChatFormHidesConversation` proves it hidden under the form |
| Chatbot.ChatWidget.TypingIndicatorShown | components/chatbot.tsx:375 | is the message list's guard and `isTyping`, the guard at :375 |
| Chatbot.ChatWidget.EscalateButtonShown | components/chatbot.tsx:305 | is `isOpen && agentEscalationEnabled && !isEscalated`, the header guard at :305; `Step` proves it stays false once escalated |
| Chatbot.ChatWidget.QuickPromptsShown | components/chatbot.tsx:391 | is the body guard and `quickPrompts.length > 0 && messages.length <= 2 && !showPreChatForm`, the guard at :391; `Step` proves it stays false once there are more than two messages |
| Chatbot.ChatWidget.InputShown | components/chatbot.tsx:407 | is the body guard and `!showPreChatForm`, the guard at :407 |
| Chatbot.ChatWidget.SendButtonEnabled | components/chatbot.tsx:426 | the send button is enabled exactly when the input is not all white space |
| Chatbot.ChatWidget.Offered | components/chatbot.tsx:305-442 | while the pre-chat form is up, the panel offers only opening or closing, minimizing, the form itself and escalation; escalation is offered only before the chat is escalated |
| Chatbot.ChatWidget.PreChatFormHidesConversation | components/chatbot.tsx:347-407 | while the pre-chat form is up, the message list, typing indicator, quick prompts and input field are hidden, and neither sending nor typing any value into the input is offered |
| JsText.TrimEmptyIffBlank | components/chatbot.tsx:175 | `trim()` gives "" exactly when every character is ECMAScript white space or a line terminator |
| JsText.TrimStartShape | components/chatbot.tsx:175 | the leading white space `trim()` drops is all white space, the rest is kept as a suffix, and what is kept does not start with white space |
| JsText.TrimEndShape | components/chatbot.tsx:175 | the trailing white space `trim()` drops is all white space, the rest is kept as a prefix, and what is kept does not end with white space |
| JsText.SplitJoin | src/utils/helpers.ts:28 | splitting a `&`-join gives back the parts, when no part contains the separator |
| UriComponent.EncodeChars | src/utils/helpers.ts:25 | escaped text holds only unreserved characters, `%` and hex digits, so never `&` or `=` |
| UriComponent.DecodeEncode | src/utils/helpers.ts:25 | decoding the escaped text gives back the original string |
| UriComponent.Utf8RoundTrip | src/utils/helpers.ts:25 | the UTF-8 octets of a character are well formed and decode back to that character |
| Helpers.SegmentShape | src/utils/helpers.ts:25 | each part has no `&` and exactly one `=`; the escaped key is before it and the escaped String(value) after it; it decodes to (key, String(value)) |
| Helpers.QueryRoundTrip | src/utils/helpers.ts:23-28 | parsing the joined string gives every key with String(value), one per key, in key order; the string is empty iff there are no keys |
| Helpers.InsertParams | src/utils/helpers.ts:19-29 | the result is the `&`-join of one escaped part per key in key order; it is "" iff there are no params; it decodes back to the keys and String(values) |
| Helpers.Capitalize | src/utils/helpers.ts:103-106 | a missing or empty string gives ""; otherwise the result has the same length, the first character upper-cased, and the rest unchanged |
| Helpers.CapitalizeIdempotent | src/utils/helpers.ts:105 | capitalising twice equals capitalising once |
| Helpers.FormatIdSpec | src/utils/helpers.ts:110 | the padded id is all decimal digits and reads back as n; only '0' stands in front of n's digits; it is exactly 4 long for n up to 9999 |
| Helpers.GenerateRandomId | src/utils/helpers.ts:108-112 | for the random number floor(Math.random() * 10000), which lies in [0, 9999], the id is 4 decimal digits reading back as that number |
| Toasts.MakeRecord | src/components/ui/toast.tsx:22-32 | the record carries the drawn id and the caller's title and description; the variant defaults to Default when left out |
| Toasts.ToastProvider.constructor | src/components/ui/toast.tsx:20 | the provider starts with no toasts |
| Toasts.ToastProvider.Toast | src/components/ui/toast.tsx:24-32 | exactly one record is appended at the end, and earlier records are kept in order |
| Toasts.ToastProvider.Expire | src/components/ui/toast.tsx:34-36 | the list becomes the old list with every record of that id filtered out |
| Toasts.RemoveById | src/components/ui/toast.tsx:35 | no record with the id survives, and the list never grows |
| Toasts.RemoveByIdMembers | src/components/ui/toast.tsx:35 | a record survives iff it was present and its id differs |
| Toasts.RemoveByIdConcat | src/components/ui/toast.tsx:35 | removal works part by part on a concatenation, so the survivors keep their relative order |
| Toasts.RemoveAbsent | src/components/ui/toast.tsx:35 | a list with no record of that id is unchanged |
| Toasts.RemoveByIdIdempotent | src/components/ui/toast.tsx:35 | removing the same id twice equals removing it once |
| Toasts.ToastThenExpire | src/components/ui/toast.tsx:22-36 | when a toast's id is new, its timer takes away exactly that toast and restores the list from before the call |
| Toasts.BackgroundColor | src/components/ui/toast.tsx:57-62 | `#f87171` iff Destructive, `#4ade80` iff Success, `#f3f4f6` iff Default |
| Toasts.TextColor | src/components/ui/toast.tsx:63 | `#1f2937` iff the variant is Default, `#ffffff` iff it is not |
| Toasts.UseToast | src/components/ui/toast.tsx:83-88 | fails with the fixed message exactly when no provider is present; otherwise returns that provider |

## Left out

- Network I/O in `sendMessageToAPI` is not modelled. This covers the URL, credentials, JSON body, parsing and console logging. Only the outcome of a request is modelled, as a parameter. A body that does not parse counts as a failure, as the code's `catch` treats it.
- Overlapping requests are not modelled. Every reply lands before the next interaction. Under interleaving, the ids that handlers compute from the rendered message count can repeat, and replies can arrive out of order. That is concurrency.
- `isTyping` is true only while a request is pending. In the model it is set and cleared inside `SendMessageToApi`, so it is false between steps.
- Message timestamps, `formatTime` (locale-dependent), the scroll-into-view effect, styling, SVG, and the `primaryColor` and `logoUrl` props are presentation only.
- The `Enter` key handler (`handleKeyPress`) calls the send handler. It is folded into `Offered(SendMessage(_))`.
- Randomness is a parameter: the toast id drawn from `Math.random()` in `toast()`, and the random number of `generateRandomId`.
- Helpers.GenerateRandomId: takes `Math.floor(Math.random() * 10000)` as its parameter, a whole number from 0 to 9999. The double product and its rounding are not modelled.
- Chatbot.ReplyText: the service's `answer` is a string or absent. A non-string answer is not modelled: `data.answer || …` would pass a truthy one through unchanged and replace `0` or `false` with the apology.
- Chatbot.ChatWidget: the props are fixed when the widget mounts (`const config`). The greeting effect also re-runs when `welcomeTagline` or `preChatForm` change (`components/chatbot.tsx:84`), but props that change after mount are not modelled.
- The toast's 3000 ms `setTimeout` is the explicit method `Expire(id)`. React context plumbing becomes an `Option` passed to `UseToast`.
- Helpers.InsertParams: numeric values are integers of magnitude at most 2^53, which `String()` prints exactly. Other doubles are not modelled: non-integral ones, and integral ones of larger magnitude, which print as their shortest round-trip digits followed by zeros below 1e21, and in exponent form from 1e21 on.
- Helpers.InsertParams: the keys are taken in the order given. `Object.keys` order (array-index keys first, in ascending order, then insertion order) is the caller's to supply.
- UriComponent.Encode: a Dafny `char` is a Unicode scalar value. So the URIError that `encodeURIComponent` throws on a lone surrogate cannot be expressed.
- Helpers.Capitalize: upper-cases ASCII letters only, because Unicode case mapping (which can also change the length, as for 'ß') is not modelled. The first character is taken as a code point, not a UTF-16 code unit.
- In `src/utils/helpers.ts`, `Toast` and `Modal` (sweetalert2), `useSharedState` (react-query), `navigateTo` (history push) and `isFunction` (`typeof`) wrap foreign libraries.
- `src/utils/colors.ts` is a constant table with no behaviour.
- `src/components/types/chat.ts` holds type declarations only.
- The `src/app/chatbot-widget/` pages are not part of this model.
