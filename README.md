# Batched embeddings wrapper for an Aqua model deployment

This project models the LangChain embeddings wrapper `OCIAquaEmbeddings`
(`oci_aqua_embeddings.py`). The wrapper turns a list of texts into embedding vectors.
It posts the texts to a model deployment's endpoint as `{"model": "odsc-llm", "input": [...]}`.
When there are more than `MAX_ROWS` (20) texts, it posts them in consecutive slices of at
most 20, one request after another. It then joins the vectors of every response in order.
Otherwise it sends a single request holding the whole list, even when the list is empty.
Any failure aborts the whole call. `embed_query` is the first vector of embedding a
one-element list.

Files:

- `results.dfy` (module `Results`): `Option` and `Result`.
- `batching.dfy` (module `Batching`): the `batchify` generator.
  - `Batches` is the list of slices it yields.
  - `Batchify` is its `for i in range(0, n, size)` loop, proved to return `Batches`.
  - `Flatten` joins slices. Lemmas state how the two relate.
- `aqua_embeddings.dfy` (module `AquaEmbeddings`): the wrapper itself. It holds:
  - the request payload and the JSON response (`"data"`, `"embedding"`, each possibly absent);
  - the exceptions that can leave the wrapper;
  - the deployment as a fallible oracle `Server`;
  - specification functions for what `embed_documents` returns (`Documents`) and which
    requests it sends, in order (`Requests`);
  - the class `Embedder`, whose methods follow the source statement by statement and are
    proved equal to those functions.

The vector type is a type parameter `V`: the wrapper never computes with vectors, it only
moves them. The class keeps a ghost log `sent` of every payload posted, so request counts
and request contents can be stated.

`Groups(texts)` is the list of text lists the wrapper sends. It is `Batches(texts, 20)` when
there are more than 20 texts and `[texts]` otherwise. Both branches of `embed_documents` are
then one fold (`EmbedAll`) over `Groups(texts)`.

A failed request's error is `Exception("Error in model invocation: <cause>")`; it does not
say which batch failed. The code never checks that a response has one embedding per text, so
`DocumentsAligned` states the vector count and positions only under that condition, while
`DocumentsJoined` states for any responses that a successful result is their vectors joined
in batch order.

## Model

| member | source | states |
|---|---|---|
| `Batching.Batchify` | oci_aqua_embeddings.py:72-75 | the loop over `range(0, len(data), size)` collects exactly the slices `Batches(data, size)` |
| `Batching.BatchesFlatten` | oci_aqua_embeddings.py:72-75 | the batches concatenate back to the input, in order |
| `Batching.BatchesShape` | oci_aqua_embeddings.py:72-75 | every batch is non-empty with at most `size` items; every batch but the last has exactly `size` |
| `Batching.BatchesCount` | oci_aqua_embeddings.py:74 | the number of batches is ⌈n/size⌉: zero exactly for empty data, else `(m-1)*size < n <= m*size` |
| `Batching.BatchAt` | oci_aqua_embeddings.py:74-75 | batch `j` is the slice `data[j*size : j*size+size]`, cut short at the end |
| `AquaEmbeddings.CreatePayload` | oci_aqua_embeddings.py:39-46 | the payload names model `odsc-llm` and carries the texts unmodified and in order |
| `AquaEmbeddings.Vectors` | oci_aqua_embeddings.py:88 | `[item["embedding"] for item in items]` succeeds iff every item has an embedding; it then has one vector per item, in item order; otherwise it raises `KeyError('embedding')` |
| `AquaEmbeddings.Embedder.constructor` | oci_aqua_embeddings.py:26-37 | stores the endpoint and keyword settings; signs with the API key of profile `DEFAULT` in `~/.oci/config` |
| `AquaEmbeddings.Embedder.SendRequest` | oci_aqua_embeddings.py:48-62 | posts the payload once (logged); a transport or HTTP failure becomes one error with message `Error in model invocation: ` + cause; a success returns the decoded response |
| `AquaEmbeddings.Embedder.EmbedDocuments` | oci_aqua_embeddings.py:64-96 | the outcome is `Documents(texts)` and the requests posted are `Requests(texts)`, in order; the loop keeps the invariant "embeddings so far == joined vectors of the batches sent so far" |
| `AquaEmbeddings.Embedder.EmbedQuery` | oci_aqua_embeddings.py:98-106 | posts exactly one request, holding `[text]`; returns the first vector of `embed_documents([text])`, propagates its error, and raises `IndexError` on an empty answer |
| `AquaEmbeddings.GroupsShape` | oci_aqua_embeddings.py:79-92 | the groups sent concatenate to the input; one group for at most 20 texts, else ⌈n/20⌉ groups; each has at most 20 texts and all but the last exactly 20 |
| `AquaEmbeddings.TwoGroups` | oci_aqua_embeddings.py:79-81 | 21 to 40 texts form two groups: the first 20 texts and the rest (21 texts: 20 and 1; 25 texts: 20 and 5) |
| `AquaEmbeddings.RequestsInOrder` | oci_aqua_embeddings.py:79-94 | at least one request is sent; request `j` carries group `j` under model `odsc-llm`, so at most 20 texts, in batch order |
| `AquaEmbeddings.SmallListOneRequest` | oci_aqua_embeddings.py:90-94 | for at most 20 texts, the empty list included, exactly one request is sent, carrying the whole list, whatever the deployment answers |
| `AquaEmbeddings.SuccessSendsEveryGroup` | oci_aqua_embeddings.py:79-89 | a successful call sent one request per group, in order: ⌈n/20⌉ requests for more than 20 texts |
| `AquaEmbeddings.DocumentsSucceed` | oci_aqua_embeddings.py:84-94 | the call succeeds iff every group's request succeeds and its response yields vectors |
| `AquaEmbeddings.FailureAborts` | oci_aqua_embeddings.py:84-89 | on failure the outcome is the error of the first failing group; that group's request is the last one sent, so no later batch is sent; every earlier group succeeded; no partial list is returned |
| `AquaEmbeddings.DocumentsAligned` | oci_aqua_embeddings.py:84-94 | if every response answers one embedding per text, the result has `len(texts)` vectors; the vector at position `20*j+t` is response slot `t` of group `j`, whose text is `texts[20*j+t]` |
| `AquaEmbeddings.QueryOneRequest` | oci_aqua_embeddings.py:106 | `embed_query` issues exactly one request, carrying the one-element list |
| `AquaEmbeddings.FailureFirst` | oci_aqua_embeddings.py:84-89 | for any batch list: a failure comes from the last request sent, and every request before it succeeded |
| `AquaEmbeddings.FailureSticks` | oci_aqua_embeddings.py:84-89 | once a prefix of the batches has failed, later batches change neither the outcome nor the requests sent |
| `AquaEmbeddings.EmbedAllAligned` | oci_aqua_embeddings.py:88 | when every response answers one embedding per text, `extend` keeps order across batch boundaries: text `t` of batch `j` gets the vector at offset (texts before batch `j`) + `t` |
| `AquaEmbeddings.EmbedAllJoined` | oci_aqua_embeddings.py:84-88 | for any responses, a successful outcome is every batch's vectors joined in batch order, and every batch's request succeeded |
| `AquaEmbeddings.DocumentsJoined` | oci_aqua_embeddings.py:84-94 | for any responses, a successful `embed_documents` returns every group's vectors joined in group order |
| `AquaEmbeddings.ReadEmbeddings` | oci_aqua_embeddings.py:88 | `[item["embedding"] for item in response["data"]]`: `KeyError('data')` when `"data"` is absent; succeeds iff `"data"` is present and every item has an embedding, then one vector per item in order; otherwise `KeyError('embedding')` |

## Left out

- HTTP transport, the 60-second `TIMEOUT`, `raise_for_status` and `response.json()`. The
  deployment is a parameter `server`, a function from endpoint, payload and signer to a
  decoded response or a failure cause. Within one call it answers the same payload the same
  way. A real deployment may answer identical batches differently.
- `set_auth` and `default_signer` are foreign calls that read `~/.oci/config`. The signer is
  the datatype `Signer`, which records the profile and configuration location passed to them.
- Keyword arguments are modelled as a map from names to strings. The source stores them and
  never reads them.
- The `tqdm` progress bar and its counter. They are console output with no effect on the result.
- The floating-point contents of vectors. A vector is an opaque value of type `V`.
- Exceptions other than a failed request, a missing `"data"` or `"embedding"` key, and an
  empty answer to a query. Examples are a JSON answer that is not an object, or an
  interpreter error. They are not modelled.
- The driver and demo scripts (`test_embeddings*.py`, `test_llama_multimodal01.py`,
  `test_pixtral02.py`) and `config_template.py`. They are console glue around remote SDKs,
  PDF loading, text splitting, a vector store and base64 encoding, and hold no logic of the
  wrapper.
