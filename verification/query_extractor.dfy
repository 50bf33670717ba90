/** The first step of the chat route: the text that is embedded and searched for is
    the content of the conversation's last message. */
module QueryExtractor {
  import opened Wrappers
  import opened ChatTypes

  /** The expression that reads `.content` of `undefined` when the conversation is empty. */
  const LastContentRead: string := "data[data.length - 1].content"

  /** The query text of a conversation: the content of its last message. An empty
      conversation has no last message, so the read throws a TypeError. */
  function ExtractQuery(data: seq<Message>): (r: Result<string, JsError>)
    ensures r.Failure? <==> |data| == 0
    ensures r.Failure? ==> r.error == TypeError(LastContentRead)
    ensures r.Success? ==> exists m :: m in data && r.value == m.content
  {
    if |data| == 0 then Failure(TypeError(LastContentRead))
    else Success(data[|data| - 1].content)
  }

  /** Appending a turn makes that turn's content the query, whatever came before it. */
  lemma QueryIsLatestTurn(history: seq<Message>, latest: Message)
    ensures ExtractQuery(history + [latest]) == Success(latest.content)
  {
    assert (history + [latest])[|history|] == latest;
  }

  /** Only the last turn matters: two conversations that end in the same turn yield the
      same query, and one that ends in a turn with other content yields another. */
  lemma QueryDependsOnlyOnLatest(h1: seq<Message>, h2: seq<Message>, m1: Message, m2: Message)
    ensures ExtractQuery(h1 + [m1]) == ExtractQuery(h2 + [m2]) <==> m1.content == m2.content
  {
    QueryIsLatestTurn(h1, m1);
    QueryIsLatestTurn(h2, m2);
  }
}
