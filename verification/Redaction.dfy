/** What every redaction of agentbridge/adapters/yuque_content.py puts in place of a secret. */
module Redaction {
  const REDACTED := "[REDACTED]"

  /** The values with those in the hidden columns replaced. */
  function Replaced(values: seq<string>, hidden: set<nat>, replacement: string): (shown: seq<string>)
    ensures |shown| == |values|
  {
    seq(|values|, i requires 0 <= i < |values| => if i in hidden then replacement else values[i])
  }

  lemma ReplacesOneMore(values: seq<string>, hidden: set<nat>, c: nat, replacement: string)
    requires c !in hidden
    ensures c < |values| ==>
              Replaced(values, hidden + {c}, replacement) == Replaced(values, hidden, replacement)[c := replacement]
    ensures |hidden + {c}| == |hidden| + 1
  {
  }
}
