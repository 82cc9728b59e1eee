/**
 * The send parameters that `deployContract` and `set` hand to web3:
 * `from` first, then every key of `options`, then `value` when it is
 * defined and positive. Later writes replace earlier ones.
 */
module Params {
  import opened Js

  /** `value !== undefined && value > 0` for a value modelled as an optional integer. */
  predicate WritesValue(value: Option<int>)
  {
    value.Some? && value.value > 0
  }

  /**
   * The parameter object built by `deployContract` and `set`, stated key by
   * key: `options.from` overrides `from`, a positive `value` overrides
   * `options.value`, every other key of `options` is copied as it is.
   */
  function SendParams(from: Value, value: Option<int>, options: map<string, Value>): (params: map<string, Value>)
    ensures params.Keys == {"from"} + options.Keys + (if WritesValue(value) then {"value"} else {})
    ensures params["from"] == if "from" in options then options["from"] else from
    ensures forall k :: k in options && !(k == "value" && WritesValue(value)) ==> params[k] == options[k]
    ensures WritesValue(value) ==> params["value"] == Num(value.value)
    ensures !WritesValue(value) ==> ("value" in params <==> "value" in options)
  {
    var copied := map["from" := from] + options;
    if WritesValue(value) then copied["value" := Num(value.value)] else copied
  }

  /** The parameter object built by `get`: only `from`. */
  function GetParams(from: Value): (params: map<string, Value>)
    ensures params.Keys == {"from"}
    ensures params["from"] == from
  {
    map["from" := from]
  }

  /** `get` sends what `set` would send with no options and no value. */
  lemma GetParamsAreBareSendParams(from: Value)
    ensures GetParams(from) == SendParams(from, None, map[])
  {
  }

  /**
   * The construction as the source performs it: start from `{from}`, copy
   * the keys of `options` one at a time, then write `value` if positive.
   * JavaScript's `for...in` visits keys in insertion order; since the keys
   * of an object are distinct, the order does not change the result.
   */
  method BuildSendParams(from: Value, value: Option<int>, options: map<string, Value>)
    returns (params: map<string, Value>)
    ensures params == SendParams(from, value, options)
  {
    params := map["from" := from];
    var todo := options.Keys;
    while todo != {}
      invariant todo <= options.Keys
      invariant params.Keys == {"from"} + (options.Keys - todo)
      invariant forall k :: k in options.Keys - todo ==> params[k] == options[k]
      invariant "from" !in options.Keys - todo ==> params["from"] == from
      decreases todo
    {
      var key :| key in todo;
      params := params[key := options[key]];
      todo := todo - {key};
    }
    if value.Some? && value.value > 0 {
      params := params["value" := Num(value.value)];
    }
  }
}
