# flare-ai-defai chat core, modelled in Dafny

This project models the core of flare-ai-defai, a chat agent for the Flare
chain. The per-session message router takes one chat message at a time. It
decides whether the message is:

1. a slash command;
2. the exact echo that confirms the last queued transaction;
3. a nonce answering a pending attestation request;
4. anything else, which is classified by intent and handed to a handler.

The handlers generate an account, prepare a native FLR transfer and queue it
for confirmation, decline swaps, ask for an attestation nonce, or converse.

The model also covers what the router drives:
- the Flare account and transaction store, with its LIFO confirmation queue;
- the vTPM attestation clients, whose nonces must be 10 to 74 bytes of UTF-8;
- the prompt library, with `string.Template.safe_substitute` formatting;
- the prompt service;
- the older prompt library and the legacy FastAPI endpoint, which uses a
  different priority order and a module-global `RA_QUEUE`.

Each module has one job:
- `wrappers.dfy` defines `Option`, `Result`, `Outcome` and the exception kinds, and `str()` of an exception.
- `text.dfy` covers byte strings and `bytes.hex`, `str(int)`, `str.startswith` and `str.strip`.
- `template.dfy` models `string.Template.safe_substitute`: a lexer for `$$`, `$id`, `${id}` and a lone `$`, plus substitution.
- `schemas.dfy` holds the `SemanticRouterResponse` enumeration, the `Prompt` record and `Prompt.format`. It stands for `prompts/schemas.py` and `prompt_service/schemas.py`, which are identical.
- `library.dfy` models `prompts/library.py`, and `prompt_service.dfy` models `prompts/service.py`.
- `json_values.dfy` holds the values `json.loads` yields, `len`, `dict.get`, and the follow-up test of the token-send handlers.
- `vtpm_protocol.dfy` holds the nonce check, the token request and the two ways an answer of the attestation service becomes a token.
- `attestation_service.dfy` models the `Vtpm` class, and `attestation.dfy` models `VtpmAttestation` and `AsyncVtpmAttestation`.
- `blockchain.dfy` models the `Flare` store.
- `ai.dfy` and `collaborators.dfy` hold the oracles the routers call.
- `chat.dfy` models `ChatRouter`.
- `legacy_prompts.dfy` models `models/prompt_library.py`, and `legacy_app.dfy` models `app.py`.

Every stateful class is a Dafny `class` with its fields:
- `Flare`, with the address, the private key and the queue;
- `Vtpm`, with the attestation flag;
- `AsyncVtpmAttestation`, with its session;
- both prompt libraries, with the dict and its key order;
- the two routers.

Each method's postcondition ties its result and new state to a step function
on values. The lemmas prove the listed properties about those step functions.

Exceptions are `Result` values that carry the exception's kind and message.
HTTP status handling is modelled as three response shapes:
- an answer;
- a 500 whose detail is `str(e)`;
- an uncaught exception.

The collaborators are oracles passed as parameters:
- the language model: `generate`, from a generation request to a response or an error, and the read of a response's `.text`, which can raise on its own;
- `json.loads`;
- the chain node, for nonce, checksum, `to_wei`, gas price, priority fee, chain id, signing and balance;
- `Web3.from_wei`'s rendering;
- the account `Account.create` returns;
- the attestation socket.

## Model

| member | source | states |
|---|---|---|
| Schemas.ExactlyFiveMembers | src/flare_ai_core/prompts/schemas.py:7-12 | the enumeration has exactly five members, with pairwise different values |
| Schemas.FromValue | src/flare_ai_core/prompt_service/schemas.py:7-12 | converting a string gives the member with that value, and fails exactly when no member has it |
| Schemas.FromValueOfValue | src/flare_ai_core/prompts/schemas.py:7-12 | converting a member's value gives that member back |
| Schemas.Format | src/flare_ai_core/prompts/schemas.py:45-49 | without required inputs, or with no `$` in the template, format returns the template unchanged |
| Schemas.FormatIgnoresKwargsWithoutInputs | src/flare_ai_core/prompt_service/schemas.py:46-47 | without required inputs, any two keyword maps give the template verbatim |
| Schemas.FormatReplacesBraced | src/flare_ai_core/prompts/schemas.py:49 | a supplied `${k}` is replaced by its value, and an unsupplied one is kept, with the rest substituted alike |
| Schemas.FormatReplacesNamed | src/flare_ai_core/prompt_service/schemas.py:48-49 | a supplied `$k` is replaced by its value, and an unsupplied one is kept, with the rest substituted alike |
| Schemas.FormatIgnoresExtraKwargs | src/flare_ai_core/prompts/schemas.py:49 | a keyword naming no placeholder of the template has no effect |
| Schemas.FormatLeavesUnsupplied | src/flare_ai_core/prompt_service/schemas.py:48-49 | when no placeholder's key is supplied and the template has no `$$`, the template comes back verbatim and nothing is raised |
| Template.LexUnlex | src/flare_ai_core/prompts/schemas.py:49 | the lexer's pieces reassemble to exactly the template |
| Template.LexIdentifiers | src/flare_ai_core/prompts/schemas.py:49 | every placeholder the lexer finds names a well-formed identifier |
| Template.SubstituteUnsupplied | src/flare_ai_core/prompts/schemas.py:49 | safe_substitute leaves the template unchanged when none of its placeholders is supplied and it has no `$$` (which becomes `$`) |
| Template.SubstituteIgnoresExtra | src/flare_ai_core/prompt_service/schemas.py:49 | safe_substitute ignores keys naming no placeholder |
| Template.SubstituteNoDollar | src/flare_ai_core/prompts/schemas.py:49 | a template without `$` is returned as it is |
| Template.SubstituteBraced | src/flare_ai_core/prompts/schemas.py:49 | a braced placeholder after `$`-free text is replaced by its value or kept verbatim when unsupplied |
| Template.SubstituteNamed | src/flare_ai_core/prompts/schemas.py:49 | a named placeholder `$k` after `$`-free text, not followed by an identifier character, is replaced by its value or kept verbatim when unsupplied |
| Library.PromptLibrary.constructor | src/flare_ai_core/prompts/library.py:23-95 | the new library holds the seven defaults in order, each under its own name, and no follow-up prompt |
| Library.PromptLibrary.AddPrompts | src/flare_ai_core/prompts/library.py:27-95 | the init loop files every prompt under its name and keeps earlier entries |
| Library.PromptLibrary.AddPrompt | src/flare_ai_core/prompts/library.py:97-99 | add inserts or overwrites by name, and every other name looks up as before |
| Library.Lookup | src/flare_ai_core/prompts/library.py:102-108 | a present name gives its prompt; a missing one raises KeyError "Prompt '<name>' not found in library" |
| Library.PromptLibrary.GetPromptsByCategory | src/flare_ai_core/prompts/library.py:110-114 | the result holds exactly the library's prompts of that category |
| Library.PromptLibrary.ListCategories | src/flare_ai_core/prompts/library.py:116-124 | a category is listed exactly when some prompt carries it; None is never listed |
| Library.DefaultsShape | src/flare_ai_core/prompts/library.py:28-92 | there are seven defaults with distinct names, and follow_up_token_send is not among them |
| Library.DefaultPromptsFound | src/flare_ai_core/prompts/library.py:28-95 | the default library finds each default by its name |
| Library.DefaultLacksFollowUp | src/flare_ai_core/prompts/library.py:104-107 | asking the default library for follow_up_token_send raises KeyError |
| Library.FilteredValues | src/flare_ai_core/prompts/library.py:110-114 | filtering through the key order is filtering the dict's values in order |
| Library.DefaultDefaiPrompts | src/flare_ai_core/prompts/library.py:110-114 | the default "defai" prompts are token_send then token_swap |
| Library.DefaultCategories | src/flare_ai_core/prompts/library.py:116-124 | the default categories are exactly router, defai, account and conversational |
| Service.FormattedPrompt | src/flare_ai_core/prompts/service.py:24-33 | the triple is (format(kwargs), MIME type, schema), in that order, and lookup errors are re-raised unchanged |
| Service.PromptService.GetFormattedPrompt | src/flare_ai_core/prompts/service.py:15-33 | the service succeeds exactly when get_prompt does, formats that prompt and passes its error through; it only reads the library |
| Service.FollowUpMissing | src/flare_ai_core/prompts/service.py:25 | over the default library, follow_up_token_send raises KeyError |
| Service.RequestAttestationUnformatted | src/flare_ai_core/prompts/service.py:25-33 | the attestation request prompt comes back as its template, with no MIME type or schema |
| Service.TxConfirmationLinksExplorer | src/flare_ai_core/prompts/library.py:83-90 | tx_confirmation requires tx_hash and block_explorer, and formatting fills in both |
| VtpmProtocol.CheckNonceLength | src/flare_ai_core/attestation_service/vtpm_attestation.py:116-136 | the loop raises exactly as the recursive nonce check does |
| VtpmProtocol.NonceCheckPasses | src/flare_ai_core/attestation_service/vtpm_attestation.py:128-136 | the check passes if and only if every nonce is 10 to 74 UTF-8 bytes; an empty list passes |
| VtpmProtocol.NonceCheckNamesFirstInvalid | src/flare_ai_core/attestation/vtpm_attestation.py:129-136 | a failure names the first nonce out of range |
| VtpmProtocol.BytesNotCharacters | src/flare_ai_core/attestation_service/vtpm_attestation.py:132 | five two-byte characters pass and nine ASCII characters fail |
| VtpmProtocol.Utf8Bounds | src/flare_ai_core/attestation/vtpm_attestation.py:299 | each character encodes to one to four bytes |
| VtpmProtocol.Utf8Ascii | src/flare_ai_core/attestation/vtpm_attestation.py:299 | ASCII text encodes to one byte per character, each its own code |
| VtpmProtocol.SyncValidatesFirst | src/flare_ai_core/attestation_service/vtpm_attestation.py:170-172 | an invalid nonce raises even in simulate mode |
| VtpmProtocol.SyncSimulated | src/flare_ai_core/attestation/vtpm_attestation.py:171-173 | in simulate mode valid nonces give the simulated token, whatever the service would answer |
| VtpmProtocol.SyncPosted | src/flare_ai_core/attestation/vtpm_attestation.py:108-114 | without simulation, a token is exactly the body of a 200 answer to the request for these nonces |
| VtpmProtocol.AsyncValidatesFirst | src/flare_ai_core/attestation/vtpm_attestation.py:338-343 | the asynchronous client rejects an invalid nonce before posting |
| VtpmProtocol.AsyncNeedsSession | src/flare_ai_core/attestation/vtpm_attestation.py:270-272 | without a session the post raises "Client not connected. Call connect() first." |
| VtpmProtocol.AsyncIgnoresStatus | src/flare_ai_core/attestation/vtpm_attestation.py:274-281 | the asynchronous post returns the body whatever the status, while the synchronous one raises |
| AttestationService.Vtpm.constructor | src/flare_ai_core/attestation_service/vtpm_attestation.py:65-74 | a new client has not requested an attestation |
| AttestationService.Vtpm.Connect | src/flare_ai_core/attestation_service/vtpm_attestation.py:77-90 | in simulate mode connecting does nothing |
| AttestationService.Vtpm.Post | src/flare_ai_core/attestation_service/vtpm_attestation.py:92-113 | a non-200 status raises, naming the status and the reason |
| AttestationService.Vtpm.GetToken | src/flare_ai_core/attestation_service/vtpm_attestation.py:137-181 | get_token checks the nonces, then takes the simulate shortcut or posts |
| Attestation.VtpmAttestation.Connect | src/flare_ai_core/attestation/vtpm_attestation.py:78-91 | in simulate mode connecting does nothing |
| Attestation.VtpmAttestation.GetToken | src/flare_ai_core/attestation/vtpm_attestation.py:138-182 | get_token checks the nonces, then takes the simulate shortcut or posts |
| Attestation.AsyncVtpmAttestation.constructor | src/flare_ai_core/attestation/vtpm_attestation.py:209-216 | a new asynchronous client has no session |
| Attestation.AsyncVtpmAttestation.Connect | src/flare_ai_core/attestation/vtpm_attestation.py:242-247 | connect opens a session, or raises "Failed to connect to socket" |
| Attestation.AsyncVtpmAttestation.Close | src/flare_ai_core/attestation/vtpm_attestation.py:249-253 | after close there is no session |
| Attestation.AsyncVtpmAttestation.Post | src/flare_ai_core/attestation/vtpm_attestation.py:270-281 | the post needs a session, and any failure becomes "Request failed" |
| Attestation.AsyncVtpmAttestation.GetToken | src/flare_ai_core/attestation/vtpm_attestation.py:338-346 | get_token checks the nonces, then posts |
| Blockchain.Flare.constructor | src/flare_ai_core/blockchain_service/flare.py:20-23 | a new store has no address, no key and an empty queue |
| Blockchain.Flare.Reset | src/flare_ai_core/blockchain_service/flare.py:26-30 | reset empties the store and returns "Reset account history" |
| Blockchain.Flare.AddTxToQueue | src/flare_ai_core/blockchain_service/flare.py:32-34 | adding to the queue appends one (msg, tx) element |
| Blockchain.EnqueueAppends | src/flare_ai_core/blockchain_service/flare.py:32-34 | the element goes at the end; the account and the earlier elements stay |
| Blockchain.Flare.SendTxInQueue | src/flare_ai_core/blockchain_service/flare.py:37-43 | confirming sends the last queued transaction and pops it once it is sent |
| Blockchain.SendEmptyQueue | src/flare_ai_core/blockchain_service/flare.py:42-43 | with an empty queue, ValueError "Unable to find confirmed tx" is raised and nothing changes |
| Blockchain.SendSignsLast | src/flare_ai_core/blockchain_service/flare.py:39-40 | the last element is signed; on success only it is removed, and on failure the queue is unchanged |
| Blockchain.EnqueueThenSend | src/flare_ai_core/blockchain_service/flare.py:32-43 | last in, first out: confirming sends what was queued last, and popping it restores the store |
| Blockchain.Flare.SignAndSendTransaction | src/flare_ai_core/blockchain_service/flare.py:51-61 | signing follows the store's current key and address |
| Blockchain.SignAndSendGuard | src/flare_ai_core/blockchain_service/flare.py:53-61 | without a key or an address signing raises "Account not initialized"; a hash comes back as "0x" plus hex digits |
| Blockchain.Flare.GenerateAccount | src/flare_ai_core/blockchain_service/flare.py:45-49 | a new account replaces key and address and returns the address |
| Blockchain.GenerateAccountSets | src/flare_ai_core/blockchain_service/flare.py:45-49 | a new account sets key and address, keeps the queue and returns an address starting with "0x" |
| Blockchain.GeneratedAccountSigns | src/flare_ai_core/blockchain_service/flare.py:45-55 | after generation, signing is no longer refused for want of an account |
| Blockchain.Flare.CheckBalance | src/flare_ai_core/blockchain_service/flare.py:63-68 | the balance is the node's answer for the store's address |
| Blockchain.Flare.CreateSendFlrTx | src/flare_ai_core/blockchain_service/flare.py:70-85 | building a transaction follows the store's current address |
| Blockchain.NoAddressGuards | src/flare_ai_core/blockchain_service/flare.py:63-73 | without an address, building a transaction and reading the balance both raise "Account does not exist" |
| Blockchain.SendFlrTxFields | src/flare_ai_core/blockchain_service/flare.py:74-84 | a built transaction is from the store's address, with gas 21000 and type 2 |
| Blockchain.ResetForgets | src/flare_ai_core/blockchain_service/flare.py:26-30 | after a reset there is nothing to confirm and nothing to sign or build with |
| Text.UnhexHex | src/flare_ai_core/blockchain_service/flare.py:61 | the hex rendering of a hash loses nothing |
| Text.ParseNatToString | src/flare_ai_core/attestation_service/vtpm_attestation.py:112 | the decimal rendering of a status reads back as the status |
| JsonValues.PyLen | src/flare_ai_core/api/chat.py:143 | len works on dicts, lists and strings, and raises TypeError for the other values |
| JsonValues.Get | src/flare_ai_core/api/chat.py:144 | get gives the entry under the key or None, and only a dict has it |
| JsonValues.NeedsFollowUp | src/flare_ai_core/api/chat.py:142-145 | a length other than 2 asks a follow-up; a dict of two entries asks one exactly when its amount is zero; no follow-up only for such a dict with a non-zero amount; a scalar raises len's TypeError and a list or string of length 2 raises get's AttributeError |
| Chat.ChatRouter.Chat | src/flare_ai_core/api/chat.py:41-74 | one message yields the reply and new store and flag the step function gives |
| Chat.ChatRouter.HandleCommand | src/flare_ai_core/api/chat.py:81-86 | handle_command resets only on "/reset" |
| Chat.ChatRouter.RouteMessage | src/flare_ai_core/api/chat.py:101-116 | route_message gives each route to its handler |
| Chat.ChatRouter.HandleGenerateAccount | src/flare_ai_core/api/chat.py:118-128 | generate-account follows its step |
| Chat.ChatRouter.HandleSendToken | src/flare_ai_core/api/chat.py:130-163 | send-token follows its step: account first (Chat.SendTokenAccountFirst), a follow-up that queues nothing (Chat.FollowUpQueuesNothing), or exactly one queued transaction and its preview (Chat.SendTokenAppendsOne) |
| Chat.ChatRouter.HandleAttestation | src/flare_ai_core/api/chat.py:168-172 | the attestation handler follows its step, setting the flag once generate has returned and before `.text` is read |
| Chat.CommandsOnly | src/flare_ai_core/api/chat.py:45-46 | a slash message is only a command: "/reset" empties the store, and any other gives "Unknown command"; the flag, and nothing else, is untouched |
| Chat.EchoConfirms | src/flare_ai_core/api/chat.py:47-64 | an exact echo of the last queued message sends and pops that transaction, ahead of any pending attestation |
| Chat.OnlyEchoPops | src/flare_ai_core/api/chat.py:47-50 | a message that is not that echo never shortens the queue |
| Chat.PendingAttestationTakesNonce | src/flare_ai_core/api/chat.py:65-67 | with the flag set, a non-command, non-echo message is the single nonce passed to get_token |
| Chat.FlagNeverCleared | src/flare_ai_core/api/chat.py:65-67 | once set, the flag stays set after any message |
| Chat.ShortNonceRefused | src/flare_ai_core/api/chat.py:65-74 | a nonce out of range becomes a 500 with the nonce error, and nothing changes |
| Chat.ClassificationFailsOpen | src/flare_ai_core/api/chat.py:88-99 | a failure of the prompt or the model, or model text that is no member's value, gives Conversational; any other route is the member whose value the model answered |
| Chat.ClassificationExact | src/flare_ai_core/api/chat.py:96 | model text equal to a member's value selects that member |
| Chat.GenerateAccountIdempotent | src/flare_ai_core/api/chat.py:118-120 | with an address present, the reply is "Account exists - <address>" and nothing changes |
| Chat.GenerateAccountInstalls | src/flare_ai_core/api/chat.py:121 | without an address, the new account is installed |
| Chat.SendTokenQueue | src/flare_ai_core/api/chat.py:130-157 | send-token leaves the queue as it was or appends exactly one (message, tx) |
| Chat.SendTokenAccountFirst | src/flare_ai_core/api/chat.py:131-132 | without an address an account is made first; its failure is the reply, otherwise the send runs on the new account, which stays installed |
| Chat.SendTokenAppendsOne | src/flare_ai_core/api/chat.py:152-163 | a two-key reading with a non-zero amount whose transaction is built appends exactly (message, tx) and replies with its preview |
| Chat.FollowUpQueuesNothing | src/flare_ai_core/api/chat.py:142-150 | a reading that needs a follow-up queues nothing and replies with the follow-up |
| Chat.FollowUpMissingWithDefaults | src/flare_ai_core/api/chat.py:146-148 | over the default library the follow-up raises KeyError, which reaches the user as a 500 |
| Chat.SwapDeclined | src/flare_ai_core/api/chat.py:165-166 | swap replies "Sorry I can't do that right now" and changes nothing |
| Chat.AttestationSetsFlag | src/flare_ai_core/api/chat.py:168-172 | the reply is the model's text; the flag ends up set exactly when it was set already or the prompt was formatted and generate returned, and the store is untouched |
| Chat.AttestationFlagBeforeText | src/flare_ai_core/api/chat.py:170-172 | when `.text` raises after generate returned, the answer is a 500 with that error and the flag is already set |
| LegacyPrompts.Format | src/flare_ai_core/models/prompt_library.py:169-180 | it raises ValueError "Nothing to format" exactly when there are no required inputs; otherwise it is the safe substitution |
| LegacyPrompts.FormatReplacesBraced | src/flare_ai_core/models/prompt_library.py:173-174 | supplied braced placeholders are replaced and unsupplied ones kept |
| LegacyPrompts.LegacyPromptLibrary.constructor | src/flare_ai_core/models/prompt_library.py:183-274 | the new library holds the nine defaults in order |
| LegacyPrompts.LegacyPromptLibrary.AddPrompt | src/flare_ai_core/models/prompt_library.py:276-277 | add inserts or overwrites by name |
| LegacyPrompts.LegacyPromptLibrary.GetPrompt | src/flare_ai_core/models/prompt_library.py:279-284 | a missing name raises NameError from the undefined logger, ahead of the KeyError |
| LegacyPrompts.LegacyPromptLibrary.GetPromptsByCategory | src/flare_ai_core/models/prompt_library.py:286-289 | the result holds exactly the prompts of that category |
| LegacyPrompts.LegacyPromptLibrary.ListCategories | src/flare_ai_core/models/prompt_library.py:291-298 | a category is listed exactly when some prompt carries it |
| LegacyPrompts.DefaultHoldsNine | src/flare_ai_core/models/prompt_library.py:189-274 | the default library has nine prompts, both follow-up prompts among them |
| LegacyPrompts.FollowUpUnformattable | src/flare_ai_core/models/prompt_library.py:208-216 | follow_up_token_send is present but formatting it raises "Nothing to format" |
| LegacyPrompts.TxConfirmationNeedsHashOnly | src/flare_ai_core/models/prompt_library.py:244-252 | tx_confirmation requires only tx_hash and formatting fills it in |
| LegacyPrompts.MissingIsNameError | src/flare_ai_core/models/prompt_library.py:279-284 | an absent name raises NameError in the default library |
| LegacyApp.MapToEnum | src/flare_ai_core/app.py:167-176 | it gives the member with that value, if and only if there is one, else ValueError "No matching enum value for: <value>" |
| LegacyApp.App.Chat | src/flare_ai_core/app.py:41-92 | one message yields the reply and new store and RA_QUEUE the step function gives |
| LegacyApp.App.RouteMessage | src/flare_ai_core/app.py:61-88 | the match on the route follows its step |
| LegacyApp.App.HandleGenerateAccount | src/flare_ai_core/app.py:95-102 | generate-account follows its step |
| LegacyApp.App.HandleSendToken | src/flare_ai_core/app.py:105-132 | send-token follows its step: errors of the prompt or generate, before the try, raise (LegacyApp.SendTokenPromptRaises); errors inside it, the read of `.text` included (LegacyApp.SendTokenTextCaught), become "Error creating transaction: ..." (LegacyApp.SendTokenErrorsCaught), and a valid reading queues exactly one transaction (LegacyApp.SendTokenAppendsOne) |
| LegacyApp.App.SendTokenAttempt | src/flare_ai_core/app.py:114-129 | the try block, from reading the response's text on, follows its step |
| LegacyApp.App.HandleRemoteAttestation | src/flare_ai_core/app.py:135-148 | the remote-attestation handler follows its step |
| LegacyApp.App.HandleConfirmedTx | src/flare_ai_core/app.py:150-164 | the confirmed-tx handler follows its step |
| LegacyApp.OnlyResetIntercepted | src/flare_ai_core/app.py:45-51 | "/reset" empties the store, answers with reset's message and keeps RA_QUEUE |
| LegacyApp.PendingTxTakesEveryMessage | src/flare_ai_core/app.py:54-55 | with a transaction queued, every message but "/reset" confirms it, ahead of RA_QUEUE and routing |
| LegacyApp.ConfirmedTxPops | src/flare_ai_core/app.py:150-164 | a sent transaction is popped even when its announcement fails; a failed send leaves the queue and is reported |
| LegacyApp.RaQueueTakesNonce | src/flare_ai_core/app.py:56-59 | with RA_QUEUE non-empty the message is the sole nonce; the queue is cleared only when a token came back |
| LegacyApp.EmptyNonceKeepsRequest | src/flare_ai_core/app.py:56-59 | an empty nonce raises, uncaught, and RA_QUEUE stays pending |
| LegacyApp.RoutingStripsQuotes | src/flare_ai_core/app.py:190 | a route value wrapped in double quotes selects that route |
| LegacyApp.RoutingFailsOpen | src/flare_ai_core/app.py:179-194 | a failure of the prompt or the model, or a stripped text map_to_enum rejects, gives Conversational |
| LegacyApp.AccountAlreadyExists | src/flare_ai_core/app.py:65-69 | with an address present, the reply is "Account already exists - <address>" and nothing changes |
| LegacyApp.RemoteAttestationQueues | src/flare_ai_core/app.py:135-148 | when the lookup, generate and `.text` succeed, their text is the reply and is appended to RA_QUEUE; otherwise the reply is "Error confirming tx: " plus str(e) of that exception and nothing changes |
| LegacyApp.RemoteAttestationQueuesAnswer | src/flare_ai_core/app.py:137-148 | with the prompt present and the model answering t, the reply is t and RA_QUEUE gains exactly t at its end |
| LegacyApp.FollowUpTryFails | src/flare_ai_core/app.py:116-120 | inside the try, a reading that needs a follow-up raises ValueError "Nothing to format" and queues nothing |
| LegacyApp.FollowUpIsFormattingError | src/flare_ai_core/app.py:116-132 | a reading that needs a follow-up replies "Error creating transaction: Nothing to format" and queues nothing |
| LegacyApp.SendTokenErrorsCaught | src/flare_ai_core/app.py:114-132 | once generate has returned, any exception inside the try becomes the reply "Error creating transaction: " plus str(e), and nothing is queued |
| LegacyApp.SendTokenPromptRaises | src/flare_ai_core/app.py:105-112 | a failure of the prompt, its formatting or generate, all before the try, raises out of the handler, with nothing changed |
| LegacyApp.SendTokenTextCaught | src/flare_ai_core/app.py:114-132 | a `.text` that raises after generate returned is caught: the reply is "Error creating transaction: " plus str(e) and nothing is queued |
| LegacyApp.SendTokenAppendsOne | src/flare_ai_core/app.py:122-129 | a two-key reading with a non-zero amount whose transaction is built appends exactly (message, tx) and replies with its preview |
| LegacyApp.SendMakesAccountFirst | src/flare_ai_core/app.py:70-74 | without an address a send first makes an account, whose failure raises; otherwise the send runs on the new account and the announcement is dropped |
| LegacyApp.SendTokenQueue | src/flare_ai_core/app.py:114-132 | send-token leaves the queue as it was or appends exactly one (message, tx) |

## Left out

- The language model's `generate` and `.text`, `json.loads`, the chain node, `eth_account` signing, `Account.create`, `Web3.from_wei` and the attestation socket are oracles. Their answers are parameters, so nothing about Gemini, RPC or HTTP transport is modelled.
- `to_checksum_address` applies the EIP-55 capitalisation, which is not modelled. A new account's address is "0x" followed by the lower-case hex of its bytes.
- Blockchain.Flare.CheckBalance: returns the balance in wei, because the conversion to a float number of ether is floating point.
- `to_wei` and the comparison of the amount with `0.0` are abstract. Zero is `0`, `0.0` or `False`, and other floats are not interpreted.
- Wrappers.ErrorText: `str()` of a KeyError is the repr of its message. Only the choice of quote is modelled, not the escaping of backslashes or control characters.
- Strings are sequences of Unicode scalar values. Lone surrogates, which `str.encode("utf-8")` would reject, and decoding the token bytes are not modelled.
- async/await, logging and structlog are left out, since there is one sequential session and no concurrency. `await handler(...)` is a plain call.
- FastAPI's HTTPException framing, CORS and the request model are left out. A 500 is a response value with the detail `str(e)`.
- `list_categories` returns a list built from a set, whose order is unspecified, so the model returns a set.
- The "Unsupported route" branch of `route_message` in `src/flare_ai_core/api/chat.py` cannot be reached, because every member has a handler, so it is not modelled.
- `app.py` uses `AgentAccount` from `flare_ai_core.onchain`, which is not part of this model. The `Flare` store stands in for it, with `send_tx_in_queue` in place of `send_confirmed_tx_and_pop_queue`, so that method's message argument has no effect.
- The chat router's `PromptService` comes from `flare_ai_core.prompt_service`, whose library and service files are not part of this model. `prompts/library.py` and `prompts/service.py` stand in for them.
- The prompt templates' prose (`src/flare_ai_core/prompts/templates.py` and the strings of `models/prompt_library.py`) is replaced by short stand-ins. The stand-ins keep exactly the original placeholders and no other `$`.
- The `Prompt.examples` field is never read and is omitted.
- `main.py`, `settings.py`, `config.py`, `models/config.py` and `onchain/config.py` hold configuration and an interactive loop. The explorer URL, the simulate flag and the simulated token become constructor parameters.
- `get_simulated_token` reads a file when the module loads, so the simulated token is a parameter of the clients.
- The Unix socket connection is the outcome the model is given. The Web3 provider URL only configures the node oracle.
- Reading `.text` is a function of the response, so the three reads in `handle_remote_attestation` give the same text or the same exception.
- The `except KeyError` handler of `Prompt.format` is not modelled, because `safe_substitute` never raises KeyError.
