/**
 * The credential pool and `call_gemini`. The environment, the random
 * draw and the remote model are parameters: `env` is `os.environ.get`,
 * `pick` is the draw `random.choice` makes, `remote` is the generative
 * model service (a `None` reply stands for an exception or a missing text).
 */
module Gemini {
  import opened Wrappers

  /** The environment variables the key list is read from, in order. */
  const KeyVariables: seq<string> := ["GOOGLE_API_KEY1", "GOOGLE_API_KEY2", "GOOGLE_API_KEY3"]

  /** The model every request names. */
  const ModelName: string := "gemini-2.5-flash"

  /** `call_gemini`'s default `max_tokens`. */
  const DefaultMaxTokens: nat := 2000

  /** What a handler passes to `call_gemini`. */
  datatype Prompt = Prompt(system: string, user: string, maxTokens: nat)

  /** What reaches the remote model: the key drawn, the model name and the prompt. */
  datatype Request = Request(key: string, model: string, prompt: Prompt)

  /** One `call_gemini`: the request sent, if any, and the value returned. */
  datatype Call = Call(sent: Option<Request>, reply: Option<string>)

  /** Python truthiness of an optional string: present and non-empty. */
  predicate Truthy(s: Option<string>) {
    s.Some? && s.value != ""
  }

  /** The key list before filtering, as read from the environment. */
  function ConfiguredKeys(env: string -> Option<string>): (configured: seq<Option<string>>)
    ensures |configured| == |KeyVariables|
    ensures forall i :: 0 <= i < |KeyVariables| ==> configured[i] == env(KeyVariables[i])
  {
    [env(KeyVariables[0]), env(KeyVariables[1]), env(KeyVariables[2])]
  }

  /** `[k for k in GOOGLE_API_KEYS if k]`. */
  function FilterKeys(configured: seq<Option<string>>): (keys: seq<string>)
    ensures |keys| <= |configured|
    ensures forall k :: k in keys ==> k != "" && Some(k) in configured
    ensures forall i :: 0 <= i < |configured| && Truthy(configured[i]) ==> configured[i].value in keys
  {
    if configured == [] then []
    else
      var rest := FilterKeys(configured[1..]);
      assert forall k :: Some(k) in configured[1..] ==> Some(k) in configured;
      assert forall i :: 1 <= i < |configured| ==> configured[i] == configured[1..][i - 1];
      (if Truthy(configured[0]) then [configured[0].value] else []) + rest
  }

  /** Filtering keeps the configuration's order: it works piece by piece. */
  lemma {:induction false} FilterKeysAppend(a: seq<Option<string>>, b: seq<Option<string>>)
    ensures FilterKeys(a + b) == FilterKeys(a) + FilterKeys(b)
    decreases |a|
  {
    if a == [] {
      assert a + b == b;
    } else {
      assert (a + b)[1..] == a[1..] + b;
      FilterKeysAppend(a[1..], b);
    }
  }

  /** A single configured entry survives exactly when it is truthy. */
  lemma FilterKeysSingle(k: Option<string>)
    ensures FilterKeys([k]) == if Truthy(k) then [k.value] else []
  {
    assert [k][1..] == [];
  }

  /** The pool is empty exactly when no configured entry is truthy. */
  lemma FilterKeysEmpty(configured: seq<Option<string>>)
    ensures FilterKeys(configured) == [] <==> forall i :: 0 <= i < |configured| ==> !Truthy(configured[i])
  {
    if FilterKeys(configured) != [] {
      var k := FilterKeys(configured)[0];
      assert Some(k) in configured && k != "";
      var i :| 0 <= i < |configured| && configured[i] == Some(k);
      assert Truthy(configured[i]);
    }
  }

  /** The pool built from the environment. */
  function KeyPool(env: string -> Option<string>): seq<string> {
    FilterKeys(ConfiguredKeys(env))
  }

  /** The pool holds the truthy configured keys in the order of their variables. */
  lemma KeyPoolInOrder(env: string -> Option<string>)
    ensures KeyPool(env) ==
      FilterKeys([env(KeyVariables[0])]) + FilterKeys([env(KeyVariables[1])]) + FilterKeys([env(KeyVariables[2])])
  {
    var c := ConfiguredKeys(env);
    assert c == [c[0]] + [c[1]] + [c[2]];
    FilterKeysAppend([c[0]] + [c[1]], [c[2]]);
    FilterKeysAppend([c[0]], [c[1]]);
  }

  /** `random.choice(GOOGLE_API_KEYS)` with the draw `pick`. */
  function SelectKey(keys: seq<string>, pick: nat): (k: string)
    requires keys != []
    ensures k in keys
  {
    keys[pick % |keys|]
  }

  /** Every key of the pool is drawn by some draw. */
  lemma EveryKeyCanBeSelected(keys: seq<string>, i: nat)
    requires i < |keys|
    ensures SelectKey(keys, i) == keys[i]
  {
  }

  /**
   * `call_gemini`: with an empty pool it returns `None` before drawing a
   * key or contacting the model; otherwise it sends the prompt with a key
   * of the pool and returns what the model gives back.
   */
  function CallGemini(keys: seq<string>, pick: nat, remote: Request -> Option<string>, prompt: Prompt): (c: Call)
    ensures keys == [] ==> c == Call(None, None)
    ensures keys != [] ==>
      (c.sent.Some? && c.sent.value.key in keys
       && c.sent.value.model == ModelName && c.sent.value.prompt == prompt
       && c.reply == remote(c.sent.value))
  {
    if keys == [] then Call(None, None)
    else
      var request := Request(SelectKey(keys, pick), ModelName, prompt);
      Call(Some(request), remote(request))
  }
}
