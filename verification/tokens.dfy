/** Reading every device token from the `/tokens` node of the realtime
    database, where each property maps a user id to that user's token. */
module Tokens {
  import opened Payloads

  /** One property of the `/tokens` node. */
  datatype Entry = Entry(userId: string, token: string)

  /** `Object.values`: the token of every entry, in the order the entries
      are enumerated. */
  function Values(entries: seq<Entry>): (tokens: seq<string>)
    ensures |tokens| == |entries|
    ensures forall i | 0 <= i < |entries| :: tokens[i] == entries[i].token
  {
    if entries == [] then [] else [entries[0].token] + Values(entries[1..])
  }

  /** `getAllUserTokens` on a successful read of the node: `data` is
      `snapshot.val()`, `None` when the node is null. A null node yields no
      tokens; otherwise there is one token per entry, the entry's own. */
  function GetAllUserTokens(data: Option<seq<Entry>>): (tokens: seq<string>)
    ensures data.None? ==> tokens == []
    ensures data.Some? ==> |tokens| == |data.value|
    ensures data.Some? ==> forall i | 0 <= i < |data.value| :: tokens[i] == data.value[i].token
  {
    match data
    case None => []
    case Some(entries) => Values(entries)
  }

  /** The token list is empty exactly when the node is null or holds no
      entries: a non-empty node always reaches the push gateway. */
  lemma NoTokensIff(data: Option<seq<Entry>>)
    ensures GetAllUserTokens(data) == [] <==> data.None? || data.value == []
  {
  }

  /** Every user's token is among the tokens read, and nothing else is. */
  lemma TokensAreTheStoredValues(data: Option<seq<Entry>>, t: string)
    ensures t in GetAllUserTokens(data) <==> data.Some? && exists e :: e in data.value && e.token == t
  {
  }
}
