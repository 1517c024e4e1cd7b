/** The contracts' dispatch for every function that the ledger models: which calldata asks for which
    call, in both directions. */
module AbiCalls {
  import opened Common
  import opened Domain
  import opened Ledger
  import opened Abi

  /** The addresses of a call are 20 bytes long. */
  predicate CallEncodable(call: Call)
  {
    match call
    case CMint(_, to, _) => |to.bytes| == ADDRESS_LENGTH
    case CApprove(_, spender, _) => |spender.bytes| == ADDRESS_LENGTH
    case CTransfer(_, to, _) => |to.bytes| == ADDRESS_LENGTH
    case CTransferFrom(_, from, to, _) => |from.bytes| == ADDRESS_LENGTH && |to.bytes| == ADDRESS_LENGTH
    case CBackrun(buy, sell, _, _, _, _) => |buy.bytes| == ADDRESS_LENGTH && |sell.bytes| == ADDRESS_LENGTH
    case CWithdraw(token, to, _) => |token.bytes| == ADDRESS_LENGTH && |to.bytes| == ADDRESS_LENGTH
    case _ => true
  }

  function BackrunOf(call: Call): BackrunCall
    requires call.CBackrun?
  {
    BackrunCall(call.buyPool, call.sellPool, call.amountInB, call.minAmountOutA, call.minAmountOutB, call.minProfitB)
  }

  /** The calldata of a call. */
  function CallData(call: Call): Bytes
    requires CallEncodable(call)
  {
    match call
    case CMint(_, to, amount) => MINT + AddressWord(to) + Word(amount)
    case CApprove(_, spender, amount) => APPROVE + AddressWord(spender) + Word(amount)
    case CTransfer(_, to, amount) => TRANSFER + AddressWord(to) + Word(amount)
    case CTransferFrom(_, from, to, amount) => TRANSFER_FROM + AddressWord(from) + AddressWord(to) + Word(amount)
    case CSeed(_, amountA, amountB) => SEED_LIQUIDITY + Word(amountA) + Word(amountB)
    case CSwapAForB(_, amountIn, min) => SWAP_EXACT_A_FOR_B + Word(amountIn) + Word(min)
    case CSwapBForA(_, amountIn, min) => SWAP_EXACT_B_FOR_A + Word(amountIn) + Word(min)
    case CBackrun(_, _, _, _, _, _) => Encoded(BackrunOf(call))
    case CWithdraw(token, to, amount) => WITHDRAW_TOKEN + AddressWord(token) + AddressWord(to) + Word(amount)
  }

  /** The contract that a call is sent to. */
  predicate SentTo(w: World, call: Call, to: Address)
  {
    match call
    case CMint(token, _, _) => to == token && IsToken(w, to)
    case CApprove(token, _, _) => to == token && IsToken(w, to)
    case CTransfer(token, _, _) => to == token && IsToken(w, to)
    case CTransferFrom(token, _, _, _) => to == token && IsToken(w, to)
    case CSeed(pool, _, _) => to == pool && to in w.pools
    case CSwapAForB(pool, _, _) => to == pool && to in w.pools
    case CSwapBForA(pool, _, _) => to == pool && to in w.pools
    case CBackrun(_, _, _, _, _, _) => to == w.backrun && to !in w.pools
    case CWithdraw(_, _, _) => to == w.backrun && to !in w.pools
  }

  predicate IsToken(w: World, to: Address)
  {
    to in w.tokens && to !in w.pools && to != w.backrun
  }

  // ---------------------------------------------------------------- words

  lemma AddressIffWord(word: Bytes, a: Address)
    requires |word| == WORD_SIZE
    ensures AddressOf(word) == Some(a) <==> |a.bytes| == ADDRESS_LENGTH && word == AddressWord(a)
  {
    if |a.bytes| == ADDRESS_LENGTH {
      AddressRoundTrip(a);
    }
  }

  /** Three words after a selector are all there is in 100 bytes. */
  lemma ThreeArguments(input: Bytes, s: Bytes, w0: Bytes, w1: Bytes, w2: Bytes)
    requires |input| >= 100 && |s| == SELECTOR_LENGTH && |w0| == |w1| == |w2| == WORD_SIZE
    ensures s + w0 + w1 + w2 <= input
            <==> && Selector(input) == s && Argument(input, 0) == w0 && Argument(input, 1) == w1
                 && Argument(input, 2) == w2
  {
    var front := input[..100];
    assert front == Selector(input) + Argument(input, 0) + Argument(input, 1) + Argument(input, 2);
    if s + w0 + w1 + w2 <= input {
      assert front == s + w0 + w1 + w2;
      assert front[..4] == s && front[4..36] == w0 && front[36..68] == w1 && front[68..] == w2;
    }
  }

  lemma SelectorsDiffer()
    ensures MINT != APPROVE && MINT != TRANSFER && MINT != TRANSFER_FROM
    ensures APPROVE != TRANSFER && APPROVE != TRANSFER_FROM && TRANSFER != TRANSFER_FROM
    ensures SWAP_EXACT_A_FOR_B != SWAP_EXACT_B_FOR_A && SWAP_EXACT_A_FOR_B != SEED_LIQUIDITY
    ensures SWAP_EXACT_B_FOR_A != SEED_LIQUIDITY && EXECUTE_BACKRUN != WITHDRAW_TOKEN
  {
    assert MINT[0] == 0x40 && APPROVE[0] == 0x09 && TRANSFER[0] == 0xa9 && TRANSFER_FROM[0] == 0x23;
    assert SWAP_EXACT_A_FOR_B[0] == 0x4c && SWAP_EXACT_B_FOR_A[0] == 0xdd && SEED_LIQUIDITY[0] == 0x8d;
    assert EXECUTE_BACKRUN[0] == 0x21 && WITHDRAW_TOKEN[0] == 0x01;
  }

  // ---------------------------------------------------------------- pools

  lemma PoolCallExact(pool: Address, input: Bytes, call: Call)
    requires |input| >= SELECTOR_LENGTH && (call.CSeed? || call.CSwapAForB? || call.CSwapBForA?)
    ensures DecodePoolCall(pool, input) == Some(call) <==> call.pool == pool && CallData(call) <= input
  {
    SelectorsDiffer();
    var x := if call.CSeed? then call.amountA else call.amountIn;
    var y := if call.CSeed? then call.amountB else call.minAmountOut;
    var s := if call.CSeed? then SEED_LIQUIDITY
             else if call.CSwapAForB? then SWAP_EXACT_A_FOR_B else SWAP_EXACT_B_FOR_A;
    assert CallData(call) == s + Word(x) + Word(y);
    if |input| >= 68 {
      TwoArguments(input, s, Word(x), Word(y));
      WordIffUint(Argument(input, 0), x);
      WordIffUint(Argument(input, 1), y);
    }
  }

  // ---------------------------------------------------------------- tokens

  /** The calls of one address and one amount. */
  predicate OneAddress(call: Call)
  {
    call.CMint? || call.CApprove? || call.CTransfer?
  }

  function AddressArgument(call: Call): Address
    requires OneAddress(call)
  {
    match call
    case CMint(_, to, _) => to
    case CApprove(_, spender, _) => spender
    case CTransfer(_, to, _) => to
  }

  function OneAddressSelector(call: Call): (s: Bytes)
    requires OneAddress(call)
    ensures |s| == SELECTOR_LENGTH
  {
    match call
    case CMint(_, _, _) => MINT
    case CApprove(_, _, _) => APPROVE
    case CTransfer(_, _, _) => TRANSFER
  }

  lemma OneAddressDecoded(token: Address, input: Bytes, call: Call)
    requires |input| >= 68 && OneAddress(call)
    ensures DecodeTokenCall(token, input) == Some(call)
            <==> && call.token == token && Selector(input) == OneAddressSelector(call)
                 && AddressOf(Argument(input, 0)) == Some(AddressArgument(call))
                 && UintOf(Argument(input, 1)) == call.amount
  {
    SelectorsDiffer();
  }

  lemma OneAddressExact(token: Address, input: Bytes, call: Call)
    requires |input| >= SELECTOR_LENGTH && OneAddress(call)
    ensures DecodeTokenCall(token, input) == Some(call)
            <==> call.token == token && CallEncodable(call) && CallData(call) <= input
  {
    if |input| >= 68 {
      OneAddressDecoded(token, input, call);
      AddressIffWord(Argument(input, 0), AddressArgument(call));
      WordIffUint(Argument(input, 1), call.amount);
      if CallEncodable(call) {
        TwoArguments(input, OneAddressSelector(call), AddressWord(AddressArgument(call)), Word(call.amount));
      }
    }
  }

  lemma TransferFromExact(token: Address, input: Bytes, call: Call)
    requires |input| >= SELECTOR_LENGTH && call.CTransferFrom?
    ensures DecodeTokenCall(token, input) == Some(call)
            <==> call.token == token && CallEncodable(call) && CallData(call) <= input
  {
    SelectorsDiffer();
    if |input| >= 100 {
      AddressIffWord(Argument(input, 0), call.from);
      AddressIffWord(Argument(input, 1), call.to);
      WordIffUint(Argument(input, 2), call.amount);
      if CallEncodable(call) {
        ThreeArguments(input, TRANSFER_FROM, AddressWord(call.from), AddressWord(call.to), Word(call.amount));
      }
    }
  }

  // ---------------------------------------------------------------- the executor

  lemma WithdrawExact(input: Bytes, call: Call)
    requires |input| >= SELECTOR_LENGTH && call.CWithdraw?
    ensures DecodeExecutorCall(input) == Some(call) <==> CallEncodable(call) && CallData(call) <= input
  {
    SelectorsDiffer();
    if |input| >= 100 {
      AddressIffWord(Argument(input, 0), call.token);
      AddressIffWord(Argument(input, 1), call.to);
      WordIffUint(Argument(input, 2), call.amount);
      if CallEncodable(call) {
        ThreeArguments(input, WITHDRAW_TOKEN, AddressWord(call.token), AddressWord(call.to), Word(call.amount));
      }
    }
  }

  lemma BackrunExact(input: Bytes, call: Call)
    requires |input| >= SELECTOR_LENGTH && call.CBackrun?
    ensures DecodeExecutorCall(input) == Some(call) <==> CallEncodable(call) && CallData(call) <= input
  {
    SelectorsDiffer();
    if DecodeExecutorCall(input) == Some(call) {
      DecodedIsEncoded(input, BackrunOf(call));
    }
    if CallEncodable(call) && CallData(call) <= input {
      EncodedArguments(BackrunOf(call), input[196..]);
      BackrunRoundTrip(BackrunOf(call), input[196..]);
      assert Encoded(BackrunOf(call)) + input[196..] == input;
    }
  }

  lemma ToPool(w: World, to: Address, input: Bytes, call: Call)
    requires to in w.pools && w.backrun !in w.pools && |input| >= SELECTOR_LENGTH
    ensures DecodeCall(w, to, input) == DecodePoolCall(to, input)
    ensures DecodePoolCall(to, input) == Some(call) ==> call.CSeed? || call.CSwapAForB? || call.CSwapBForA?
  {
  }

  lemma ToExecutor(w: World, to: Address, input: Bytes, call: Call)
    requires to == w.backrun && w.backrun !in w.pools && |input| >= SELECTOR_LENGTH
    ensures DecodeCall(w, to, input) == DecodeExecutorCall(input)
    ensures DecodeExecutorCall(input) == Some(call) ==> call.CBackrun? || call.CWithdraw?
  {
  }

  lemma ToToken(w: World, to: Address, input: Bytes, call: Call)
    requires IsToken(w, to) && |input| >= SELECTOR_LENGTH
    ensures DecodeCall(w, to, input) == DecodeTokenCall(to, input)
    ensures DecodeTokenCall(to, input) == Some(call) ==> OneAddress(call) || call.CTransferFrom?
  {
  }

  lemma ExecutorCallExact(input: Bytes, call: Call)
    requires |input| >= SELECTOR_LENGTH && (call.CBackrun? || call.CWithdraw?)
    ensures DecodeExecutorCall(input) == Some(call) <==> CallEncodable(call) && CallData(call) <= input
  {
    if call.CBackrun? {
      BackrunExact(input, call);
    } else {
      WithdrawExact(input, call);
    }
  }

  lemma TokenCallExact(token: Address, input: Bytes, call: Call)
    requires |input| >= SELECTOR_LENGTH && (OneAddress(call) || call.CTransferFrom?)
    ensures DecodeTokenCall(token, input) == Some(call)
            <==> call.token == token && CallEncodable(call) && CallData(call) <= input
  {
    if call.CTransferFrom? {
      TransferFromExact(token, input, call);
    } else {
      OneAddressExact(token, input, call);
    }
  }

  /** Calldata is never shorter than a selector. */
  lemma CallDataLength(call: Call)
    requires CallEncodable(call)
    ensures |CallData(call)| >= 68
  {
  }

  lemma DispatchByContract(w: World, to: Address, input: Bytes, call: Call)
    requires w.backrun !in w.pools && |input| >= SELECTOR_LENGTH
    ensures DecodeCall(w, to, input) == Some(call)
            <==> SentTo(w, call, to) && CallEncodable(call) && CallData(call) <= input
  {
    if to in w.pools {
      ToPool(w, to, input, call);
      if call.CSeed? || call.CSwapAForB? || call.CSwapBForA? {
        PoolCallExact(to, input, call);
      }
    } else if to == w.backrun {
      ToExecutor(w, to, input, call);
      if call.CBackrun? || call.CWithdraw? {
        ExecutorCallExact(input, call);
      }
    } else if IsToken(w, to) {
      ToToken(w, to, input, call);
      if OneAddress(call) || call.CTransferFrom? {
        TokenCallExact(to, input, call);
      }
    }
  }

  /** The contracts read a call out of a transaction if and only if it is sent to the right contract
      and its calldata starts with the encoding of the call. */
  lemma DispatchExact(w: World, to: Address, input: Bytes, call: Call)
    requires w.backrun !in w.pools
    ensures DecodeCall(w, to, input) == Some(call)
            <==> SentTo(w, call, to) && CallEncodable(call) && CallData(call) <= input
  {
    if CallEncodable(call) {
      CallDataLength(call);
    }
    if |input| >= SELECTOR_LENGTH {
      DispatchByContract(w, to, input, call);
    }
  }
}
