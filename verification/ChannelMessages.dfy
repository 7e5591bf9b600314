/** The messages of packages/rpc/src/channels.shared.ts that concern promises, decoded. */
module ChannelMessages {
  import opened Serialization
  import opened Texts

  datatype Request = Request(id: nat, channel: Text, name: Text, arg: Data)

  datatype ToServer = Ask(request: Request) | CancelOrDispose(id: nat)

  datatype ToClient = Initialize | Answer(response: Response)

  datatype Response = Response(kind: ResponseKind, id: nat, data: Data)

  datatype ResponseKind = PromiseSuccess | PromiseError | PromiseErrorObj | EventFire

  /** The requests among the messages, by id. */
  function AskedIds(messages: seq<ToServer>): seq<nat> {
    if messages == [] then [] else AskedIds(messages[..|messages| - 1]) + AskedId(messages[|messages| - 1])
  }

  function AskedId(message: ToServer): seq<nat> {
    if message.Ask? then [message.request.id] else []
  }

  lemma AskedOneMore(messages: seq<ToServer>, message: ToServer)
    ensures AskedIds(messages + [message]) == AskedIds(messages) + AskedId(message)
  {
    assert (messages + [message])[..|messages|] == messages;
  }

  lemma {:induction false} AskedConcat(a: seq<ToServer>, b: seq<ToServer>)
    ensures AskedIds(a + b) == AskedIds(a) + AskedIds(b)
  {
    if b == [] {
      assert a + b == a;
    } else {
      assert (a + b)[..|a + b| - 1] == a + b[..|b| - 1];
      AskedConcat(a, b[..|b| - 1]);
    }
  }
}
