/** Automatic prompt caching for Bedrock Converse requests: the cache fields a model
    supports, and the insertion of cache points after the last two eligible user messages
    and after the system prompt. */
module PromptCache {
  import opened Wrappers
  import opened Strings
  import opened ModelCatalog

  /** A content block, as far as caching looks at it: a cache point, a tool result, or
      any other block (text, image, document, tool use, ...).  System prompt blocks use
      the same type; they are never tool results. */
  datatype ContentBlock = CachePoint | ToolResult | OtherBlock

  /** A conversation message.  `content` may be missing. */
  datatype Message = Message(role: string, content: Option<seq<ContentBlock>>)

  /** `modelId.replace(/^(us|eu|apac)\./, '')`: drops one cross-region prefix. */
  function StripCriPrefix(modelId: string): (r: string)
    ensures |r| <= |modelId| && r == modelId[|modelId| - |r|..]
  {
    if StartsWith(modelId, "us.") || StartsWith(modelId, "eu.") then modelId[3..]
    else if StartsWith(modelId, "apac.") then modelId[5..]
    else modelId
  }

  /** A prefixed id loses exactly its prefix, whatever follows it (so only one prefix
      is removed from `us.eu.x`). */
  lemma StripCriPrefixOf(prefix: string, id: string)
    requires prefix == "us." || prefix == "eu." || prefix == "apac."
    ensures StripCriPrefix(prefix + id) == id
  {
    var s := prefix + id;
    assert s[..|prefix|] == prefix;
    if prefix == "eu." {
      assert s[0] == 'e';
    } else if prefix == "apac." {
      assert s[0] == 'a';
    }
  }

  /** An id without a cross-region prefix is left as it is. */
  lemma StripCriPrefixNone(id: string)
    requires !StartsWith(id, "us.") && !StartsWith(id, "eu.") && !StartsWith(id, "apac.")
    ensures StripCriPrefix(id) == id
  {
  }

  /** `SUPPORTED_CACHE_FIELDS[baseModelId] || []`. */
  function GetSupportedCacheFields(modelId: string): (r: seq<PromptCacheField>)
    ensures Messages in r <==> StripCriPrefix(modelId) in SupportedCacheFields
    ensures System in r <==> StripCriPrefix(modelId) in SupportedCacheFields
    ensures StripCriPrefix(modelId) !in SupportedCacheFields ==> r == []
    ensures StripCriPrefix(modelId) in SupportedCacheFields ==>
              r == SupportedCacheFields[StripCriPrefix(modelId)]
  {
    var base := StripCriPrefix(modelId);
    if base in SupportedCacheFields then
      CacheFieldsShape(base);
      SupportedCacheFields[base]
    else []
  }

  /** A cross-region id has the cache fields of the model it routes to. */
  lemma CacheFieldsIgnoreRegion(prefix: string, id: string)
    requires prefix == "us." || prefix == "eu." || prefix == "apac."
    requires !StartsWith(id, "us.") && !StartsWith(id, "eu.") && !StartsWith(id, "apac.")
    ensures GetSupportedCacheFields(prefix + id) == GetSupportedCacheFields(id)
  {
    StripCriPrefixOf(prefix, id);
    StripCriPrefixNone(id);
  }

  /** The US cross-region Claude Sonnet 4 caches messages, system and tools; Nova Pro in
      any region caches messages and system only. */
  lemma CacheFieldsExamples()
    ensures GetSupportedCacheFields("us." + "anthropic.claude-sonnet-4-20250514-v1:0")
         == [Messages, System, Tools]
    ensures GetSupportedCacheFields("apac." + "amazon.nova-pro-v1:0") == [Messages, System]
  {
    StripCriPrefixOf("us.", "anthropic.claude-sonnet-4-20250514-v1:0");
    StripCriPrefixOf("apac.", "amazon.nova-pro-v1:0");
  }

  predicate HasToolResult(m: Message) {
    m.content.Some? && ToolResult in m.content.value
  }

  /** A message that may receive a cache point: a user message, and, unless the model
      caches tools, one without a tool result block. */
  predicate Eligible(m: Message, toolsSupported: bool) {
    m.role == "user" && (toolsSupported || !HasToolResult(m))
  }

  /** `blocks?.at(-1)?.cachePoint`: the last block is a cache point. */
  predicate EndsWithCachePoint(blocks: Option<seq<ContentBlock>>) {
    blocks.Some? && |blocks.value| > 0 && blocks.value[|blocks.value| - 1] == CachePoint
  }

  /** `{ ...message, content: [...(message.content || []), CACHE_POINT] }`. */
  function WithCachePoint(m: Message): (r: Message)
    ensures r.role == m.role && EndsWithCachePoint(r.content)
    ensures r.content.value[..|r.content.value| - 1] == m.content.GetOr([])
  {
    m.(content := Some(m.content.GetOr([]) + [CachePoint]))
  }

  /** Which messages are eligible, position by position. */
  function Eligibility(ms: seq<Message>, tools: bool): (e: seq<bool>)
    ensures |e| == |ms| && forall i :: 0 <= i < |ms| ==> e[i] == Eligible(ms[i], tools)
  {
    seq(|ms|, i requires 0 <= i < |ms| => Eligible(ms[i], tools))
  }

  /** The positions below `n` that hold `true`, in order. */
  function TrueIndices(e: seq<bool>, n: nat): seq<nat>
    requires n <= |e|
  {
    if n == 0 then [] else TrueIndices(e, n - 1) + (if e[n - 1] then [n - 1] else [])
  }

  /** How many positions of `e[lo..hi]` hold `true`. */
  function CountTrue(e: seq<bool>, lo: nat, hi: nat): nat
    requires hi <= |e|
  {
    if hi <= lo then 0 else CountTrue(e, lo, hi - 1) + (if e[hi - 1] then 1 else 0)
  }

  /** `s.slice(-k)` for k >= 0: the last k elements, or all of them when there are fewer. */
  function LastK<T>(s: seq<T>, k: nat): seq<T>
  {
    if |s| <= k then s else s[|s| - k..]
  }

  lemma LastKSnoc<T>(s: seq<T>, x: T, k: nat)
    requires k >= 1
    ensures LastK(s + [x], k) == LastK(s, k - 1) + [x]
  {
    if |s| + 1 > k {
      assert (s + [x])[|s| + 1 - k..] == s[|s| + 1 - k..] + [x];
    }
  }

  /** Membership in the last k true positions below n: a true position followed, below n,
      by fewer than k true positions. */
  lemma {:induction false} LastTrue(e: seq<bool>, n: nat, k: nat, j: nat)
    requires n <= |e|
    ensures j in LastK(TrueIndices(e, n), k)
        <==> j < n && e[j] && CountTrue(e, j + 1, n) < k
  {
    if n > 0 {
      if !e[n - 1] {
        LastTrue(e, n - 1, k, j);
        LastTrueSkip(e, n, k, j);
      } else if k > 0 {
        LastTrue(e, n - 1, k - 1, j);
        LastTrueTake(e, n, k, j);
      } else {
        assert LastK(TrueIndices(e, n), k) == [];
      }
    }
  }

  lemma CountTrueStep(e: seq<bool>, n: nat, j: nat)
    requires 0 < n <= |e|
    ensures j < n - 1 ==>
      CountTrue(e, j + 1, n) == CountTrue(e, j + 1, n - 1) + (if e[n - 1] then 1 else 0)
  {
  }

  /** The step of LastTrue past a false position. */
  lemma LastTrueSkip(e: seq<bool>, n: nat, k: nat, j: nat)
    requires 0 < n <= |e| && !e[n - 1]
    requires j in LastK(TrueIndices(e, n - 1), k)
        <==> j < n - 1 && e[j] && CountTrue(e, j + 1, n - 1) < k
    ensures j in LastK(TrueIndices(e, n), k)
        <==> j < n && e[j] && CountTrue(e, j + 1, n) < k
  {
    CountTrueStep(e, n, j);
    assert TrueIndices(e, n) == TrueIndices(e, n - 1);
  }

  /** The step of LastTrue past a true position, which takes one of the k places. */
  lemma LastTrueTake(e: seq<bool>, n: nat, k: nat, j: nat)
    requires 0 < n <= |e| && e[n - 1] && 0 < k
    requires j in LastK(TrueIndices(e, n - 1), k - 1)
        <==> j < n - 1 && e[j] && CountTrue(e, j + 1, n - 1) < k - 1
    ensures j in LastK(TrueIndices(e, n), k)
        <==> j < n && e[j] && CountTrue(e, j + 1, n) < k
  {
    var s := TrueIndices(e, n - 1);
    var t := LastK(s, k - 1);
    assert LastK(TrueIndices(e, n), k) == t + [n - 1] by {
      assert TrueIndices(e, n) == s + [n - 1];
      LastKSnoc(s, n - 1, k);
    }
    calc {
      j in LastK(TrueIndices(e, n), k);
      j in t + [n - 1];
      j in t || j == n - 1;
      (j < n - 1 && e[j] && CountTrue(e, j + 1, n - 1) < k - 1) || j == n - 1;
      { CountTrueStep(e, n, j); }
      j < n && e[j] && CountTrue(e, j + 1, n) < k;
    }
  }

  /** `applyAutoCacheToMessages`: a cache point after each of the last two eligible
      messages that does not already end with one. */
  function ApplyAutoCacheToMessages(ms: seq<Message>, modelId: string): (r: seq<Message>)
    ensures |r| == |ms|
    ensures forall i :: 0 <= i < |ms| ==> r[i] == ms[i] || r[i] == WithCachePoint(ms[i])
    ensures Messages !in GetSupportedCacheFields(modelId) || ms == [] ==> r == ms
  {
    var fields := GetSupportedCacheFields(modelId);
    if Messages !in fields || |ms| == 0 then ms
    else
      var cachable := LastK(TrueIndices(Eligibility(ms, Tools in fields), |ms|), 2);
      seq(|ms|, i requires 0 <= i < |ms| =>
        (if i !in cachable || EndsWithCachePoint(ms[i].content) then ms[i]
         else WithCachePoint(ms[i])))
  }

  /** Exactly the messages that are eligible, are followed by fewer than two eligible
      messages, and do not already end with a cache point gain one, and only when the
      model caches messages. */
  lemma ChangedMessages(ms: seq<Message>, modelId: string, i: nat)
    requires i < |ms|
    ensures var fields := GetSupportedCacheFields(modelId);
            var tools := Tools in fields;
            (ApplyAutoCacheToMessages(ms, modelId)[i] != ms[i]
             <==> && Messages in fields
                  && Eligible(ms[i], tools)
                  && CountTrue(Eligibility(ms, tools), i + 1, |ms|) < 2
                  && !EndsWithCachePoint(ms[i].content))
  {
    var fields := GetSupportedCacheFields(modelId);
    LastTrue(Eligibility(ms, Tools in fields), |ms|, 2, i);
    assert WithCachePoint(ms[i]) != ms[i] by {
      if ms[i].content.Some? {
        assert |WithCachePoint(ms[i]).content.value| == |ms[i].content.value| + 1;
      }
    }
  }

  /** Adding a cache point changes neither the role nor the tool results of a message. */
  lemma WithCachePointEligible(m: Message, tools: bool)
    ensures Eligible(WithCachePoint(m), tools) == Eligible(m, tools)
  {
    var c := WithCachePoint(m).content.value;
    assert c == m.content.GetOr([]) + [CachePoint];
    assert ToolResult in c <==> ToolResult in m.content.GetOr([]);
  }

  /** Applying the insertion twice is the same as applying it once. */
  lemma MessagesIdempotent(ms: seq<Message>, modelId: string)
    ensures ApplyAutoCacheToMessages(ApplyAutoCacheToMessages(ms, modelId), modelId)
         == ApplyAutoCacheToMessages(ms, modelId)
  {
    var fields := GetSupportedCacheFields(modelId);
    var r := ApplyAutoCacheToMessages(ms, modelId);
    if Messages in fields && |ms| > 0 {
      var tools := Tools in fields;
      forall i | 0 <= i < |ms|
        ensures Eligible(r[i], tools) == Eligible(ms[i], tools)
      {
        WithCachePointEligible(ms[i], tools);
      }
      assert Eligibility(r, tools) == Eligibility(ms, tools);
      var cachable := LastK(TrueIndices(Eligibility(ms, tools), |ms|), 2);
      forall i | 0 <= i < |ms| && i in cachable
        ensures EndsWithCachePoint(r[i].content)
      {
      }
    }
  }

  /** `applyAutoCacheToSystem`: one cache point after a non-empty system prompt, unless
      the model does not cache the system prompt or the prompt already ends with one. */
  function ApplyAutoCacheToSystem(system: seq<ContentBlock>, modelId: string): (r: seq<ContentBlock>)
    ensures r == system || r == system + [CachePoint]
    ensures r != system
        <==> && System in GetSupportedCacheFields(modelId)
             && system != []
             && system[|system| - 1] != CachePoint
  {
    if System !in GetSupportedCacheFields(modelId) || |system| == 0
       || system[|system| - 1] == CachePoint
    then system
    else system + [CachePoint]
  }

  /** Applying the system insertion twice is the same as applying it once, and afterwards
      a supported, non-empty system prompt ends with a cache point. */
  lemma SystemIdempotent(system: seq<ContentBlock>, modelId: string)
    ensures var r := ApplyAutoCacheToSystem(system, modelId);
            && ApplyAutoCacheToSystem(r, modelId) == r
            && (System in GetSupportedCacheFields(modelId) && system != []
                ==> r[|r| - 1] == CachePoint)
  {
  }
}
