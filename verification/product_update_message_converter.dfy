/** The partner's wire format for a single inventory update: five fields
    separated by single spaces, positional, with no escaping. */
module ProductUpdateMessageConverter {
  import opened Wrappers
  import opened Text
  import opened Decimals

  /** A decoded partner update message. */
  datatype ProductUpdateMessage = ProductUpdateMessage(
    BranchId: string,
    ProductId: string,
    AdjustmentQuantity: Decimal,
    AdjustmentUnits: string,
    ReasonCode: string)

  /** `From(message)`: split on ' ' and read tokens 0 to 4 in order. The object
      initializer reads tokens 0 and 1, parses token 2, then reads tokens 3 and
      4, so a missing token 0 to 2 is an `IndexOutOfRangeException`, a bad
      quantity is a `FormatException` even when tokens 3 and 4 are missing too,
      and a missing token 3 or 4 after a good quantity is an
      `IndexOutOfRangeException`. Tokens after the fifth are ignored. */
  function From(message: string): (r: Result<ProductUpdateMessage>)
    ensures var parts := Split(message, " ");
      r.Err? <==> |parts| < 5 || Parse(parts[2]).None?
    ensures r.Ok? ==> r.value.BranchId == Split(message, " ")[0] && r.value.ReasonCode == Split(message, " ")[4]
  {
    var messageParts := Split(message, " ");
    if |messageParts| < 3 then Err(IndexOutOfRange)
    else match Parse(messageParts[2])
      case None => Err(Format)
      case Some(quantity) =>
        if |messageParts| < 5 then Err(IndexOutOfRange)
        else Ok(ProductUpdateMessage(messageParts[0], messageParts[1], quantity,
                                     messageParts[3], messageParts[4]))
  }

  /** `To(message)`: the five fields in declaration order with one space
      between each two. The quantity is written with `ToString()`; the `:D2`
      in the source applies to that string, which ignores it. When the string
      fields hold no space, the text splits back into exactly those five
      fields, the quantity printed. */
  function To(message: ProductUpdateMessage): (r: string)
    ensures SpaceFree(message) ==>
      Split(r, " ") == [message.BranchId, message.ProductId, ToString(message.AdjustmentQuantity),
                        message.AdjustmentUnits, message.ReasonCode]
  {
    var fields := [message.BranchId, message.ProductId, ToString(message.AdjustmentQuantity),
                   message.AdjustmentUnits, message.ReasonCode];
    if SpaceFree(message) then
      SplitJoin(fields, ' ', " ");
      Join(fields, ' ')
    else Join(fields, ' ')
  }

  /** The string fields of `message` contain no space, so that `To` keeps
      them as one token each. */
  predicate SpaceFree(message: ProductUpdateMessage)
  {
    && NoneOf(message.BranchId, " ")
    && NoneOf(message.ProductId, " ")
    && NoneOf(message.AdjustmentUnits, " ")
    && NoneOf(message.ReasonCode, " ")
  }

  /** Decoding a message whose space-separated tokens are `tokens` (five or
      more, empty ones included) succeeds exactly when token 2 is a number,
      and then assigns tokens 0 to 4 to the five fields in order, ignoring the
      rest. An empty token from a doubled space is a field like any other. */
  lemma {:induction false} FromTokens(tokens: seq<string>)
    requires |tokens| >= 5
    requires forall k :: 0 <= k < |tokens| ==> NoneOf(tokens[k], " ")
    ensures From(Join(tokens, ' ')).Ok? <==> Parse(tokens[2]).Some?
    ensures From(Join(tokens, ' ')).Ok? ==>
      From(Join(tokens, ' ')).value
        == ProductUpdateMessage(tokens[0], tokens[1], Parse(tokens[2]).value, tokens[3], tokens[4])
  {
    SplitJoin(tokens, ' ', " ");
  }

  /** Encoding then decoding gives back the message, when its string fields
      hold no space. */
  lemma {:induction false} RoundTrip(message: ProductUpdateMessage)
    requires SpaceFree(message)
    ensures From(To(message)) == Ok(message)
  {
    ParseToString(message.AdjustmentQuantity);
  }

  /** Whatever `From` decodes, `To` encodes to text that decodes to the same
      message: decode, encode, decode is decode. */
  lemma {:induction false} DecodeEncodeDecode(line: string)
    requires From(line).Ok?
    ensures From(To(From(line).value)) == From(line)
  {
    RoundTrip(From(line).value);
  }

  /** A message of fewer than five tokens is rejected: with fewer than three
      by the missing token, with a bad quantity by the parse, and with a good
      quantity by the missing token 3 or 4. */
  lemma {:induction false} FewTokensRejected(tokens: seq<string>)
    requires 1 <= |tokens| < 5
    requires forall k :: 0 <= k < |tokens| ==> NoneOf(tokens[k], " ")
    ensures |tokens| < 3 ==> From(Join(tokens, ' ')) == Err(IndexOutOfRange)
    ensures |tokens| >= 3 && Parse(tokens[2]).None? ==> From(Join(tokens, ' ')) == Err(Format)
    ensures |tokens| >= 3 && Parse(tokens[2]).Some? ==> From(Join(tokens, ' ')) == Err(IndexOutOfRange)
  {
    SplitJoin(tokens, ' ', " ");
  }
}
