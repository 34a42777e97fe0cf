/** A LangChain embeddings wrapper for a model deployment: texts are sent to the deployment's
    endpoint in batches of at most MaxRows, and the returned vectors are joined in input order.
    Vectors are values of an arbitrary type V; the wrapper only moves them around. */
module AquaEmbeddings {
  import opened Results
  import opened Batching

  /** Largest number of texts sent in a single request. */
  const MaxRows: nat := 20

  /** The model name every request payload carries. */
  const ModelName: string := "odsc-llm"

  /** Prefix of the message of the error that wraps a transport or HTTP failure. */
  const InvocationPrefix: string := "Error in model invocation: "

  /** The JSON request body {"model": ..., "input": [...]}. */
  datatype Payload = Payload(model: string, input: seq<string>)

  /** One member of the response's "data" list; its "embedding" key may be absent. */
  datatype Item<V> = Item(embedding: Option<V>)

  /** The decoded JSON response; its "data" key may be absent. */
  datatype Response<V> = Response(data: Option<seq<Item<V>>>)

  /** The exceptions that leave embed_documents and embed_query. */
  datatype Error =
    | InvocationError(message: string)  // a wrapped transport or HTTP-status failure
    | KeyError(key: string)             // a missing key in the response
    | IndexError                        // the first vector of an empty list was asked for

  /** The credentials requests are signed with: an API key read from a configuration profile. */
  datatype Signer = ApiKeySigner(configLocation: string, profile: string)

  /** The remote deployment: what posting a payload to an endpoint with a signer yields,
      either the decoded response or the cause of the transport or HTTP failure. */
  type Server<V> = (string, Payload, Signer) -> Result<Response<V>, string>

  /** Requests as the wrapper sees them, with failures already wrapped. */
  type Send<V> = Payload -> Result<Response<V>, Error>

  /** Builds the request body for a list of texts. */
  function CreatePayload(texts: seq<string>): (p: Payload)
    ensures p.model == ModelName
    ensures p.input == texts
  {
    Payload(ModelName, texts)
  }

  /** The requests sent to endpoint with auth: every transport or HTTP failure becomes one
      generic error whose message carries the cause. */
  function Connection<V>(server: Server<V>, endpoint: string, auth: Signer): Send<V>
  {
    p => match server(endpoint, p, auth)
         case Success(response) => Success(response)
         case Failure(cause) => Failure(InvocationError(InvocationPrefix + cause))
  }

  /** The list [item["embedding"] for item in items]. */
  function Vectors<V>(items: seq<Item<V>>): (r: Result<seq<V>, Error>)
    ensures r.Success? <==> forall i | 0 <= i < |items| :: items[i].embedding.Some?
    ensures r.Success? ==> |r.value| == |items|
    ensures r.Success? ==> forall i | 0 <= i < |items| :: r.value[i] == items[i].embedding.value
    ensures r.Failure? ==> r.error == KeyError("embedding")
    decreases |items|
  {
    if items == [] then Success([])
    else if items[0].embedding.None? then Failure(KeyError("embedding"))
    else
      var rest := Vectors(items[1..]);
      if rest.Failure? then rest else Success([items[0].embedding.value] + rest.value)
  }

  /** The vectors of a response: Vectors(response["data"]). */
  function ReadEmbeddings<V>(response: Response<V>): (r: Result<seq<V>, Error>)
    ensures response.data.None? ==> r == Failure(KeyError("data"))
    ensures r.Success? <==>
              && response.data.Some?
              && forall i | 0 <= i < |response.data.value| :: response.data.value[i].embedding.Some?
    ensures r.Success? ==> |r.value| == |response.data.value|
    ensures r.Success? ==>
              forall i | 0 <= i < |r.value| :: r.value[i] == response.data.value[i].embedding.value
    ensures response.data.Some? && r.Failure? ==> r.error == KeyError("embedding")
  {
    match response.data
    case None => Failure(KeyError("data"))
    case Some(items) => Vectors(items)
  }

  /** What one request for a batch contributes: its vectors, or the error that aborts. */
  function Step<V>(send: Send<V>, batch: seq<string>): Result<seq<V>, Error>
  {
    var response := send(CreatePayload(batch));
    if response.Failure? then Failure(response.error) else ReadEmbeddings(response.value)
  }

  /** Sending the batches one after another and joining their vectors; the first failure
      aborts. Defined from the last batch backwards, the order in which the loop extends. */
  function EmbedAll<V>(batches: seq<seq<string>>, send: Send<V>): Result<seq<V>, Error>
    decreases |batches|
  {
    if batches == [] then Success([])
    else
      var done := EmbedAll(batches[..|batches| - 1], send);
      if done.Failure? then done
      else
        var last := Step(send, batches[|batches| - 1]);
        if last.Failure? then last else Success(done.value + last.value)
  }

  /** The requests EmbedAll sends, in order: none after the first failure. */
  function Issued<V>(batches: seq<seq<string>>, send: Send<V>): seq<Payload>
    decreases |batches|
  {
    if batches == [] then []
    else
      var init := batches[..|batches| - 1];
      if EmbedAll(init, send).Failure? then Issued(init, send)
      else Issued(init, send) + [CreatePayload(batches[|batches| - 1])]
  }

  /** The text lists embed_documents sends: slices of MaxRows when there are more than
      MaxRows texts, otherwise the whole list in one request (also when it is empty). */
  function Groups(texts: seq<string>): seq<seq<string>>
  {
    if |texts| > MaxRows then Batches(texts, MaxRows) else [texts]
  }

  /** The outcome of embed_documents(texts). */
  function Documents<V>(texts: seq<string>, send: Send<V>): Result<seq<V>, Error>
  {
    EmbedAll(Groups(texts), send)
  }

  /** The requests embed_documents(texts) sends, in order. */
  function Requests<V>(texts: seq<string>, send: Send<V>): seq<Payload>
  {
    Issued(Groups(texts), send)
  }

  /** The vectors each batch's request yields, in batch order. */
  ghost function Outputs<V>(send: Send<V>, batches: seq<seq<string>>): seq<seq<V>>
    requires forall j | 0 <= j < |batches| :: Step(send, batches[j]).Success?
  {
    seq(|batches|, j requires 0 <= j < |batches| => Step(send, batches[j]).value)
  }

  /** The request for batch answers with exactly one embedding per text. */
  ghost predicate OnePerText<V>(send: Send<V>, batch: seq<string>)
  {
    var response := send(CreatePayload(batch));
    && response.Success?
    && response.value.data.Some?
    && |response.value.data.value| == |batch|
    && forall t | 0 <= t < |batch| :: response.value.data.value[t].embedding.Some?
  }

  /** The embedding in response slot t of the request for batch. */
  ghost function Slot<V>(send: Send<V>, batch: seq<string>, t: nat): V
    requires OnePerText(send, batch) && t < |batch|
  {
    send(CreatePayload(batch)).value.data.value[t].embedding.value
  }

  // ---------------------------------------------------------------------------------------
  // Batch sequences: how the loop's prefixes, its failures and its requests fit together.

  /** Going from the first j batches to the first j + 1. */
  lemma {:induction false} EmbedAllExtend<V>(batches: seq<seq<string>>, j: nat, send: Send<V>)
    requires j < |batches| && EmbedAll(batches[..j], send).Success?
    ensures Step(send, batches[j]).Failure? ==>
              EmbedAll(batches[..j + 1], send) == Step(send, batches[j])
    ensures Step(send, batches[j]).Success? ==>
              EmbedAll(batches[..j + 1], send)
              == Success(EmbedAll(batches[..j], send).value + Step(send, batches[j]).value)
    ensures Issued(batches[..j + 1], send) == Issued(batches[..j], send) + [CreatePayload(batches[j])]
  {
    var prefix := batches[..j + 1];
    assert prefix[..|prefix| - 1] == batches[..j];
  }

  /** Once a prefix of the batches fails, nothing after it changes the outcome or is sent. */
  lemma {:induction false} FailureSticks<V>(batches: seq<seq<string>>, m: nat, send: Send<V>)
    requires m <= |batches| && EmbedAll(batches[..m], send).Failure?
    ensures EmbedAll(batches, send) == EmbedAll(batches[..m], send)
    ensures Issued(batches, send) == Issued(batches[..m], send)
    decreases |batches|
  {
    if m < |batches| {
      var init := batches[..|batches| - 1];
      assert init[..m] == batches[..m];
      FailureSticks(init, m, send);
    } else {
      assert batches[..m] == batches;
    }
  }

  /** The requests sent are the payloads of a prefix of the batches, in batch order; at least
      one is sent when there is a batch at all. */
  lemma {:induction false} IssuedPrefix<V>(batches: seq<seq<string>>, send: Send<V>)
    ensures |Issued(batches, send)| <= |batches|
    ensures forall j | 0 <= j < |Issued(batches, send)| ::
              Issued(batches, send)[j] == CreatePayload(batches[j])
    ensures batches != [] ==> Issued(batches, send) != []
    decreases |batches|
  {
    if batches != [] {
      var init := batches[..|batches| - 1];
      IssuedPrefix(init, send);
      if EmbedAll(init, send).Success? {
        IssuedOnSuccess(init, send);
      }
    }
  }

  /** The batches all succeed exactly when every batch's request succeeds. */
  lemma {:induction false} EmbedAllSucceeds<V>(batches: seq<seq<string>>, send: Send<V>)
    ensures EmbedAll(batches, send).Success?
            <==> forall j | 0 <= j < |batches| :: Step(send, batches[j]).Success?
    decreases |batches|
  {
    if batches != [] {
      var init := batches[..|batches| - 1];
      EmbedAllSucceeds(init, send);
    }
  }

  /** On success, whatever the responses hold, the outcome is the vectors of every batch's
      response joined in batch order. */
  lemma {:induction false} EmbedAllJoined<V>(batches: seq<seq<string>>, send: Send<V>)
    requires EmbedAll(batches, send).Success?
    ensures forall j | 0 <= j < |batches| :: Step(send, batches[j]).Success?
    ensures EmbedAll(batches, send).value == Flatten(Outputs(send, batches))
    decreases |batches|
  {
    EmbedAllSucceeds(batches, send);
    if batches != [] {
      var n := |batches| - 1;
      var init := batches[..n];
      EmbedAllJoined(init, send);
      var outputs := Outputs(send, batches);
      assert outputs[..n] == Outputs(send, init);
    }
  }

  /** On success every batch was sent. */
  lemma {:induction false} IssuedOnSuccess<V>(batches: seq<seq<string>>, send: Send<V>)
    requires EmbedAll(batches, send).Success?
    ensures |Issued(batches, send)| == |batches|
    decreases |batches|
  {
    if batches != [] {
      IssuedOnSuccess(batches[..|batches| - 1], send);
    }
  }

  /** On failure the last request sent is the first one that failed, its error is the
      outcome, and every request before it succeeded. */
  lemma {:induction false} FailureFirst<V>(batches: seq<seq<string>>, send: Send<V>)
    requires EmbedAll(batches, send).Failure?
    ensures 1 <= |Issued(batches, send)| <= |batches|
    ensures EmbedAll(batches, send) == Step(send, batches[|Issued(batches, send)| - 1])
    ensures forall j | 0 <= j < |Issued(batches, send)| - 1 :: Step(send, batches[j]).Success?
    decreases |batches|
  {
    var init := batches[..|batches| - 1];
    if EmbedAll(init, send).Failure? {
      FailureFirst(init, send);
    } else {
      IssuedOnSuccess(init, send);
      EmbedAllSucceeds(init, send);
    }
  }

  /** When every request answers one embedding per text, the outcome holds as many vectors
      as there are texts. */
  lemma {:induction false} EmbedAllCount<V>(batches: seq<seq<string>>, send: Send<V>)
    requires forall j | 0 <= j < |batches| :: OnePerText(send, batches[j])
    ensures EmbedAll(batches, send).Success?
    ensures |EmbedAll(batches, send).value| == |Flatten(batches)|
    decreases |batches|
  {
    if batches != [] {
      var n := |batches| - 1;
      EmbedAllCount(batches[..n], send);
      assert Step(send, batches[n]) == Vectors(send(CreatePayload(batches[n])).value.data.value);
    }
  }

  /** ... and the vector at the position of text t of batch j (the texts of the earlier batches
      come first) is the one in response slot t of the request for batch j. */
  lemma {:induction false} EmbedAllAligned<V>(batches: seq<seq<string>>, send: Send<V>, j: nat, t: nat)
    requires forall i | 0 <= i < |batches| :: OnePerText(send, batches[i])
    requires j < |batches| && t < |batches[j]|
    ensures EmbedAll(batches, send).Success?
    ensures |Flatten(batches[..j])| + t < |EmbedAll(batches, send).value|
    ensures EmbedAll(batches, send).value[|Flatten(batches[..j])| + t] == Slot(send, batches[j], t)
    decreases |batches|
  {
    var n := |batches| - 1;
    var init := batches[..n];
    EmbedAllCount(batches, send);
    EmbedAllCount(init, send);
    var items := send(CreatePayload(batches[n])).value.data.value;
    var last := Step(send, batches[n]);
    assert last == Vectors(items);
    assert EmbedAll(batches, send).value == EmbedAll(init, send).value + last.value;
    if j < n {
      assert init[..j] == batches[..j];
      assert init[j] == batches[j];
      EmbedAllAligned(init, send, j, t);
    } else {
      assert batches[..j] == init;
      assert last.value[t] == items[t].embedding.value;
    }
  }

  // ---------------------------------------------------------------------------------------
  // Groups: how embed_documents splits its input.

  /** The groups concatenate back to the input; there is one group for at most MaxRows texts,
      otherwise the ceiling of |texts| / MaxRows of them; each holds at most MaxRows texts and
      all but the last exactly MaxRows. */
  lemma GroupsShape(texts: seq<string>)
    ensures Flatten(Groups(texts)) == texts
    ensures |texts| <= MaxRows ==> Groups(texts) == [texts]
    ensures |texts| > MaxRows ==> |Groups(texts)| == (|texts| + MaxRows - 1) / MaxRows
    ensures forall j | 0 <= j < |Groups(texts)| :: |Groups(texts)[j]| <= MaxRows
    ensures forall j | 0 <= j < |Groups(texts)| - 1 :: |Groups(texts)[j]| == MaxRows
  {
    if |texts| > MaxRows {
      BatchesFlatten(texts, MaxRows);
      BatchesCount(texts, MaxRows);
      BatchesShape(texts, MaxRows);
    } else {
      assert [texts][..0] == [];
    }
  }

  /** Between MaxRows + 1 and 2 * MaxRows texts make two groups: the first MaxRows texts and
      the rest (21 texts give 20 and 1, 25 give 20 and 5). */
  lemma TwoGroups(texts: seq<string>)
    requires MaxRows < |texts| <= 2 * MaxRows
    ensures Groups(texts) == [texts[..MaxRows], texts[MaxRows..]]
    ensures |Groups(texts)[1]| == |texts| - MaxRows
  {
    var rest := texts[MaxRows..];
    assert Batches(texts, MaxRows) == [texts[..MaxRows]] + Batches(rest, MaxRows);
    assert rest[..|rest|] == rest;
    assert Batches(rest, MaxRows) == [rest] + Batches(rest[|rest|..], MaxRows);
    assert rest[|rest|..] == [];
  }

  // ---------------------------------------------------------------------------------------
  // embed_documents and embed_query.

  /** Every request embed_documents sends carries, in order, the next group of texts, at most
      MaxRows of them under the model name; at least one request is always sent. */
  lemma RequestsInOrder<V>(texts: seq<string>, send: Send<V>)
    ensures 1 <= |Requests(texts, send)| <= |Groups(texts)|
    ensures forall j | 0 <= j < |Requests(texts, send)| ::
              && Requests(texts, send)[j].model == ModelName
              && Requests(texts, send)[j].input == Groups(texts)[j]
              && |Requests(texts, send)[j].input| <= MaxRows
  {
    IssuedPrefix(Groups(texts), send);
    GroupsShape(texts);
  }

  /** At most MaxRows texts, the empty list included, cause exactly one request, carrying the
      whole list unchanged, whatever the deployment answers. */
  lemma SmallListOneRequest<V>(texts: seq<string>, send: Send<V>)
    requires |texts| <= MaxRows
    ensures Requests(texts, send) == [CreatePayload(texts)]
  {
    assert Groups(texts) == [texts];
    assert [texts][..0] == [];
    assert Issued([texts], send) == Issued([], send) + [CreatePayload(texts)];
  }

  /** A call that succeeds sent one request per group: ceiling(|texts| / MaxRows) requests
      for more than MaxRows texts. */
  lemma SuccessSendsEveryGroup<V>(texts: seq<string>, send: Send<V>)
    requires Documents(texts, send).Success?
    ensures |Requests(texts, send)| == |Groups(texts)|
    ensures |texts| > MaxRows ==> |Requests(texts, send)| == (|texts| + MaxRows - 1) / MaxRows
    ensures forall j | 0 <= j < |Groups(texts)| :: Requests(texts, send)[j] == CreatePayload(Groups(texts)[j])
  {
    IssuedOnSuccess(Groups(texts), send);
    IssuedPrefix(Groups(texts), send);
    GroupsShape(texts);
  }

  /** embed_documents succeeds exactly when every group's request succeeds. */
  lemma DocumentsSucceed<V>(texts: seq<string>, send: Send<V>)
    ensures Documents(texts, send).Success?
            <==> forall j | 0 <= j < |Groups(texts)| :: Step(send, Groups(texts)[j]).Success?
  {
    EmbedAllSucceeds(Groups(texts), send);
  }

  /** On success embed_documents returns the vectors of every group's response, joined in
      group order. */
  lemma DocumentsJoined<V>(texts: seq<string>, send: Send<V>)
    requires Documents(texts, send).Success?
    ensures forall j | 0 <= j < |Groups(texts)| :: Step(send, Groups(texts)[j]).Success?
    ensures Documents(texts, send).value == Flatten(Outputs(send, Groups(texts)))
  {
    EmbedAllJoined(Groups(texts), send);
  }

  /** A failure aborts the whole call: the outcome is the error of the first group whose
      request failed, that group's request is the last one sent, and all before it succeeded. */
  lemma FailureAborts<V>(texts: seq<string>, send: Send<V>)
    requires Documents(texts, send).Failure?
    ensures 1 <= |Requests(texts, send)| <= |Groups(texts)|
    ensures Documents(texts, send) == Step(send, Groups(texts)[|Requests(texts, send)| - 1])
    ensures forall j | 0 <= j < |Requests(texts, send)| - 1 :: Step(send, Groups(texts)[j]).Success?
  {
    FailureFirst(Groups(texts), send);
  }

  /** When every request answers one embedding per text, embed_documents returns one vector
      per text, in input order: the vector at position MaxRows * j + t is the one answered
      for text t of group j, which is the text at that same position. */
  lemma DocumentsAligned<V>(texts: seq<string>, send: Send<V>)
    requires forall j | 0 <= j < |Groups(texts)| :: OnePerText(send, Groups(texts)[j])
    ensures Documents(texts, send).Success?
    ensures |Documents(texts, send).value| == |texts|
    ensures forall j, t | 0 <= j < |Groups(texts)| && 0 <= t < |Groups(texts)[j]| ::
              && MaxRows * j + t < |texts|
              && texts[MaxRows * j + t] == Groups(texts)[j][t]
              && Documents(texts, send).value[MaxRows * j + t] == Slot(send, Groups(texts)[j], t)
  {
    var groups := Groups(texts);
    GroupsShape(texts);
    EmbedAllCount(groups, send);
    forall j, t | 0 <= j < |groups| && 0 <= t < |groups[j]|
      ensures && MaxRows * j + t < |texts|
              && texts[MaxRows * j + t] == groups[j][t]
              && Documents(texts, send).value[MaxRows * j + t] == Slot(send, groups[j], t)
    {
      FlattenPrefixLength(groups, MaxRows, j);
      FlattenAt(groups, j, t);
      EmbedAllAligned(groups, send, j, t);
    }
  }

  /** A query sends exactly one request, holding the one text. */
  lemma QueryOneRequest<V>(text: string, send: Send<V>)
    ensures Requests([text], send) == [CreatePayload([text])]
  {
    SmallListOneRequest([text], send);
  }

  /** The wrapper object: the endpoint and signer it posts to, the extra settings it was built
      with, and (ghost) the log of every payload it has sent. */
  class Embedder<V> {
    const endpoint: string
    const auth: Signer
    const kwargs: map<string, string>
    ghost var sent: seq<Payload>

    /** Signs with the API key of the DEFAULT profile in ~/.oci/config. */
    constructor (endpoint: string, kwargs: map<string, string>)
      ensures this.endpoint == endpoint && this.kwargs == kwargs
      ensures auth == ApiKeySigner("~/.oci/config", "DEFAULT")
      ensures sent == []
    {
      this.endpoint := endpoint;
      this.auth := ApiKeySigner("~/.oci/config", "DEFAULT");
      this.kwargs := kwargs;
      sent := [];
    }

    /** Posts payload to endpoint; a failure comes back as one InvocationError carrying its cause. */
    method SendRequest(server: Server<V>, endpoint: string, payload: Payload, auth: Signer)
      returns (response: Result<Response<V>, Error>)
      modifies this`sent
      ensures sent == old(sent) + [payload]
      ensures response == Connection(server, endpoint, auth)(payload)
      ensures response.Failure? <==> server(endpoint, payload, auth).Failure?
      ensures response.Failure? ==>
                response.error == InvocationError(InvocationPrefix + server(endpoint, payload, auth).error)
    {
      sent := sent + [payload];
      var reply := server(endpoint, payload, auth);
      if reply.Failure? {
        response := Failure(InvocationError(InvocationPrefix + reply.error));
      } else {
        response := Success(reply.value);
      }
    }

    /** Embeds texts: in batches of MaxRows when there are more than MaxRows of them, else in a
        single request; the outcome and the requests sent are those of Documents and Requests. */
    method EmbedDocuments(texts: seq<string>, server: Server<V>) returns (result: Result<seq<V>, Error>)
      modifies this`sent
      ensures result == Documents(texts, Connection(server, endpoint, auth))
      ensures sent == old(sent) + Requests(texts, Connection(server, endpoint, auth))
    {
      ghost var send := Connection(server, endpoint, auth);
      if |texts| > MaxRows {
        var batches := Batchify(texts, MaxRows);
        assert Groups(texts) == batches;
        var embeddings: seq<V> := [];
        var j := 0;
        while j < |batches|
          invariant j <= |batches|
          invariant EmbedAll(batches[..j], send) == Success(embeddings)
          invariant sent == old(sent) + Issued(batches[..j], send)
        {
          var payload := CreatePayload(batches[j]);
          var response := SendRequest(server, endpoint, payload, auth);
          EmbedAllExtend(batches, j, send);
          if response.Failure? {
            FailureSticks(batches, j + 1, send);
            result := Failure(response.error);
            return;
          }
          var vectors := ReadEmbeddings(response.value);
          if vectors.Failure? {
            FailureSticks(batches, j + 1, send);
            result := Failure(vectors.error);
            return;
          }
          embeddings := embeddings + vectors.value;
          j := j + 1;
        }
        assert batches[..j] == batches;
        result := Success(embeddings);
        assert result == Documents(texts, send);
      } else {
        assert Groups(texts) == [texts];
        assert [texts][..0] == [];
        EmbedAllExtend([texts], 0, send);
        assert [texts][..1] == [texts];
        SmallListOneRequest(texts, send);
        var payload := CreatePayload(texts);
        var response := SendRequest(server, endpoint, payload, auth);
        if response.Failure? {
          result := Failure(response.error);
        } else {
          result := ReadEmbeddings(response.value);
        }
        assert result == Step(send, texts);
        if result.Success? {
          assert [] + result.value == result.value;
        }
        assert result == Documents(texts, send);
      }
    }

    /** Embeds one text: the first vector of embedding the one-element list, after exactly
        one request; an empty answer raises IndexError. */
    method EmbedQuery(text: string, server: Server<V>) returns (result: Result<V, Error>)
      modifies this`sent
      ensures sent == old(sent) + [CreatePayload([text])]
      ensures var documents := Documents([text], Connection(server, endpoint, auth));
              && (documents.Failure? ==> result == Failure(documents.error))
              && (documents.Success? && documents.value == [] ==> result == Failure(IndexError))
              && (documents.Success? && documents.value != [] ==> result == Success(documents.value[0]))
    {
      QueryOneRequest(text, Connection(server, endpoint, auth));
      var documents := EmbedDocuments([text], server);
      if documents.Failure? {
        result := Failure(documents.error);
      } else if |documents.value| == 0 {
        result := Failure(IndexError);
      } else {
        result := Success(documents.value[0]);
      }
    }
  }
}
