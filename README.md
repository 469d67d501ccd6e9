# LlamaIndexTS Hugging Face provider and MCP tool bridge, in Dafny

This project models the deterministic core of two adapters of LlamaIndexTS.

- The Hugging Face inference provider (`HuggingFaceInferenceAPI`, module `HuggingFace`).
  It turns a sequence of chat messages into the tagged prompt `<|role|>\n…</s>\n`.
  The prompt always opens with a system segment and ends with an open `<|assistant|>\n`.
  It resolves the generation settings against `DEFAULT_PARAMS` with the nullish operator `??`.
  It reports those settings as metadata.
  It dispatches a chat to the streaming or the non-streaming text-generation call.
  It wraps the non-streaming answer into an assistant message and each streamed token into a delta.
- The Model Context Protocol client (`MCPClient`, module `Mcp`).
  It takes option defaults at construction.
  It maps each tool descriptor the server lists to a local function tool.
  The local name is `prefix_name` only when the prefix is a non-empty string.
  A missing description becomes `""`, and the schema passes through unchanged.
  A call forwards the original, unprefixed name and the input unchanged.
- Module `Js` holds the JavaScript semantics the adapters rely on.
  These are `null`/`undefined` as `None`, `??`, string truthiness, `startsWith`, and JSON values.
  It also defines number truthiness, `||` on numbers and `endsWith`, which neither adapter uses; they serve only to state properties.

The remote calls are parameters of the model: `textGeneration`, `textGenerationStream`, and the tool list returned by `listTools`.
`messagesToPrompt` is an imperative loop in the source.
It is the method `MessagesToPrompt`, proved equal to the specification function `PromptOf`.
The lemmas about `PromptOf` state the prompt's shape.

Two details of the code are easy to miss:
- A tool-name prefix is applied only when it is truthy, so an empty prefix leaves names unchanged.
- A message may carry any role. Roles other than system, user and assistant are skipped rather than rejected.

## Model

| member | source | states |
|---|---|---|
| `HuggingFace.HuggingFaceInferenceAPI.MessagesToPrompt` | packages/providers/huggingface/src/shared.ts:142-160 | the loop-built prompt equals `PromptOf(messages)`: segments appended in input order, blank system segment put in front when the segments do not start with `<\|system\|>\n`, open assistant tag appended |
| `HuggingFace.SegmentIsTaggedContent` | packages/providers/huggingface/src/shared.ts:145-151 | a system, user or assistant message contributes `<\|role\|>\n` + content + `</s>\n`; any other role contributes the empty string |
| `HuggingFace.SegmentsAppend` | packages/providers/huggingface/src/shared.ts:144-152 | the segments of `a + b` are the segments of `a` followed by those of `b` |
| `HuggingFace.SegmentsAt` | packages/providers/huggingface/src/shared.ts:144-152 | message `i`'s segment sits between the segments of the messages before it and those after it, in input order |
| `HuggingFace.Rendered` | packages/providers/huggingface/src/shared.ts:144-151 | the rendered messages are exactly the input's messages with role system, user or assistant: each kept message is in the input and rendered, and each rendered input message is kept |
| `HuggingFace.RenderedAppend` | packages/providers/huggingface/src/shared.ts:144-151 | the rendered messages of `a + b` are those of `a` followed by those of `b`, so they keep input order |
| `HuggingFace.FirstRenderedAt` | packages/providers/huggingface/src/shared.ts:144-151 | the first rendered message is the input's first message whose role is system, user or assistant |
| `HuggingFace.OpensWithSystemIff` | packages/providers/huggingface/src/shared.ts:144-156 | the first rendered message is a system message exactly when some input message is a system message with no system, user or assistant message before it |
| `HuggingFace.RoleNameInjective` | packages/providers/huggingface/src/shared.ts:145-149 | each role value stands for exactly one role string, so `Other` never hides a rendered role |
| `HuggingFace.SegmentsOfRendered` | packages/providers/huggingface/src/shared.ts:144-152 | messages with any other role contribute nothing: the segments equal those of the rendered messages alone |
| `HuggingFace.RenderedSegmentStartsWithSystemIff` | packages/providers/huggingface/src/shared.ts:145-151 | a rendered segment, followed by anything, starts with `<\|system\|>\n` exactly when its role is system |
| `HuggingFace.SegmentsStartWithSystemIff` | packages/providers/huggingface/src/shared.ts:153-156 | the segments start with `<\|system\|>\n` exactly when the first rendered message is a system message (both directions) |
| `HuggingFace.PromptShape` | packages/providers/huggingface/src/shared.ts:143-159 | prompt = blank system segment exactly when the first rendered message is not a system message, then all segments, then one `<\|assistant\|>\n` |
| `HuggingFace.PromptStartsWithSystem` | packages/providers/huggingface/src/shared.ts:153-156 | every prompt starts with `<\|system\|>\n` |
| `HuggingFace.PromptEndsWithAssistant` | packages/providers/huggingface/src/shared.ts:157-158 | every prompt ends with `<\|assistant\|>\n` |
| `HuggingFace.PromptOfNothingRendered` | packages/providers/huggingface/src/shared.ts:143-159 | an empty list, or one without a rendered role, yields `<\|system\|>\n</s>\n<\|assistant\|>\n` |
| `HuggingFace.HuggingFaceInferenceAPI.constructor` | packages/providers/huggingface/src/shared.ts:97-116 | temperature, topP, maxTokens and contextWindow keep a supplied value, zero included, and otherwise take 0.1, 1, undefined and 3900; the model is stored as given |
| `Js.CoalesceDiffersFromOrOnlyOnZero` | packages/providers/huggingface/src/shared.ts:111-114 | `??` keeps every supplied value; it differs from falsy `\|\|` exactly on a supplied zero with a non-zero default |
| `HuggingFace.HuggingFaceInferenceAPI.Metadata` | packages/providers/huggingface/src/shared.ts:118-128 | metadata echoes the instance's model and four settings unchanged, with tokenizer undefined and structuredOutput false |
| `HuggingFace.HuggingFaceInferenceAPI.NonStreamChat` | packages/providers/huggingface/src/shared.ts:162-177 | one remote call on the model, the prompt and the metadata; the answer is kept as raw and its generated text becomes an assistant message |
| `HuggingFace.ToChunks` | packages/providers/huggingface/src/shared.ts:187-190 | one chunk per streamed item, in order, with delta = the token's text and raw = the item |
| `HuggingFace.HuggingFaceInferenceAPI.StreamChat` | packages/providers/huggingface/src/shared.ts:179-191 | the streaming path converts the remote stream for the same model, prompt and metadata |
| `HuggingFace.DeltasAreTokenTexts` | packages/providers/huggingface/src/shared.ts:187-190 | concatenated deltas equal the concatenated token texts |
| `HuggingFace.StreamingMatchesNonStreaming` | packages/providers/huggingface/src/shared.ts:162-191 | when the remote's generated text for the request is the concatenation of the tokens it streams for the same request, the streamed deltas concatenate to the non-streaming message content |
| `HuggingFace.HuggingFaceInferenceAPI.Chat` | packages/providers/huggingface/src/shared.ts:135-140 | takes the streaming path exactly when `params.stream` is truthy, otherwise the non-streaming one |
| `Mcp.MCPClient.constructor` | packages/tools/src/tools/mcp.ts:41-50 | client name `"mcp-client-cli"`, version `"1.0.0"`, verbose false unless supplied; the prefix is stored as given |
| `Mcp.MCPClient.Tools` | packages/tools/src/tools/mcp.ts:73-103 | one local tool per descriptor, same length and order; name `prefix_name` exactly when the prefix is truthy; description or `""`; schema unchanged; original name kept for the call |
| `Mcp.CallRequest` | packages/tools/src/tools/mcp.ts:79-91 | a call sends the captured remote name and the input unchanged |
| `Mcp.ToolCallForwardsOriginalName` | packages/tools/src/tools/mcp.ts:83-95 | calling the `i`-th local tool sends the `i`-th descriptor's original name; that name differs from the advertised one exactly when the prefix is truthy |
| `Mcp.StripPrefixOfLocalName` | packages/tools/src/tools/mcp.ts:93-95 | stripping the prefix from a local name gives back the remote name |
| `Mcp.LocalNameInjective` | packages/tools/src/tools/mcp.ts:93-95 | under one prefix, distinct remote names give distinct local names |
| `Mcp.LocalNameRenamesIff` | packages/tools/src/tools/mcp.ts:93-95 | the local name differs from the remote name exactly when the prefix is a non-empty string |
| `Mcp.ToolsKeepNamesDistinct` | packages/tools/src/tools/mcp.ts:75-102 | distinct descriptor names map to distinct local names, and each local name strips back to its descriptor's name |
| `Mcp.DistinctPrefixesDoNotCollide` | packages/tools/src/tools/mcp.ts:93-95 | two different non-empty prefixes without `_` never produce the same local name |
| `Mcp.PrefixesWithUnderscoreCanCollide` | packages/tools/src/tools/mcp.ts:93-95 | with `_` inside a prefix, tools of two sources can collide: `a` + `b_c` and `a_b` + `c` both give `a_b_c` |

## Left out

- `HuggingFaceInferenceAPIEmbedding` (shared.ts:34-62) is not modelled. Its two operations are remote feature-extraction calls whose results are unchecked casts.
- The `HfInference` client is not modelled: its construction from the access token and options, and the endpoint override `if (endpoint) this.hf.endpoint(endpoint)`. The `@huggingface/inference` library is not part of this model.
- Asynchrony is not modelled. The promises, the `@wrapLLMEvent` decorator and the `BaseLLM` base class are left out, and so are errors raised by the remote. The remote calls are total functions passed in as parameters.
- HuggingFace.HuggingFaceInferenceAPI.StreamChat: the async generator and `streamConverter` are modelled as a map over a finite sequence delivered at once, not as incremental iteration.
- Message content is a string. Content given as an array of parts, which the template literal stringifies, is not modelled.
- A message role is `System`, `User`, `Assistant` or `Other(name)`. The subset type `Role` keeps the names `system`, `user` and `assistant` out of `Other`, so each role string has exactly one value. The string comparisons `role === "system"` become matches on this type.
- HuggingFace.HuggingFaceInferenceAPI.constructor: temperature and topP are `real` and maxTokens and contextWindow are `int`. JavaScript floating point and NaN are not modelled. `null` and `undefined` are both `None`.
- HuggingFace.HuggingFaceInferenceAPI.Chat: `params.stream` is a boolean standing for its truthiness.
- The MCP `Client` and `StdioClientTransport` are not modelled, and neither are `connectToSever`, `listTools` and `cleanup` (mcp.ts:52-68). These are subprocess and JSON-RPC I/O. The unawaited connect in the constructor is an ordering hazard outside a sequential model.
- Mcp.MCPClient.Tools: the call closure is represented by the remote name it captures. `CallRequest` gives the request it sends. The remote's answer, returned verbatim, is not modelled.
- Verbose `console.log` output in mcp.ts is not modelled; only the `verbose` flag is kept.
