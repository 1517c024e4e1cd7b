/** Calldata: Knight's encoder, Knight's swap decoder and the decoder of the contracts, all over
    the static-tuple rules of the Solidity Contract ABI Specification ("Formal Specification of
    the Encoding"). */
module Abi {
  import opened Common
  import opened Domain
  import opened Ledger

  const WORD_SIZE: nat := 32
  const ADDRESS_LENGTH: nat := 20
  const SELECTOR_LENGTH: nat := 4

  const EXECUTE_BACKRUN: Bytes := [0x21, 0x2c, 0x22, 0xbe]
  const SWAP_EXACT_A_FOR_B: Bytes := [0x4c, 0xab, 0xca, 0x0a]
  const SWAP_EXACT_B_FOR_A: Bytes := [0xdd, 0x4f, 0x16, 0x11]
  const SEED_LIQUIDITY: Bytes := [0x8d, 0x7e, 0x07, 0x6d]
  const WITHDRAW_TOKEN: Bytes := [0x01, 0xe3, 0x36, 0x67]
  const MINT: Bytes := [0x40, 0xc1, 0x0f, 0x19]
  const APPROVE: Bytes := [0x09, 0x5e, 0xa7, 0xb3]
  const TRANSFER: Bytes := [0xa9, 0x05, 0x9c, 0xbb]
  const TRANSFER_FROM: Bytes := [0x23, 0xb8, 0x72, 0xdd]

  datatype BackrunCall = BackrunCall(
    buyPool: Address,
    sellPool: Address,
    amountInB: U256,
    minAmountOutA: U256,
    minAmountOutB: U256,
    minProfitB: U256)

  // ---------------------------------------------------------------- big-endian numbers

  function Pow256(n: nat): (p: nat)
    ensures p > 0
  {
    if n == 0 then 1 else 256 * Pow256(n - 1)
  }

  /** The number a byte string stands for, most significant byte first. */
  function Value(bs: Bytes): nat
  {
    if bs == [] then 0 else 256 * Value(bs[..|bs| - 1]) + bs[|bs| - 1] as nat
  }

  /** The last `len` bytes of a number, most significant byte first. */
  function BigEndian(x: nat, len: nat): (bs: Bytes)
    ensures |bs| == len
    decreases len
  {
    if len == 0 then [] else BigEndian(x / 256, len - 1) + [(x % 256) as Byte]
  }

  lemma {:induction false} ValueOfBigEndian(x: nat, len: nat)
    requires x < Pow256(len)
    ensures Value(BigEndian(x, len)) == x
    decreases len
  {
    if len != 0 {
      ValueOfBigEndian(x / 256, len - 1);
      var bs := BigEndian(x, len);
      assert bs[..len - 1] == BigEndian(x / 256, len - 1);
    }
  }

  lemma {:induction false} BigEndianOfValue(bs: Bytes)
    ensures Value(bs) < Pow256(|bs|)
    ensures BigEndian(Value(bs), |bs|) == bs
  {
    if bs != [] {
      BigEndianOfValue(bs[..|bs| - 1]);
      assert bs == bs[..|bs| - 1] + [bs[|bs| - 1]];
    }
  }

  lemma {:induction false} WordsFillLimbs(k: nat)
    ensures Pow256(8 * k) == Modulus(k)
  {
    if k != 0 {
      WordsFillLimbs(k - 1);
      EightBytes(8 * (k - 1));
    }
  }

  lemma EightBytes(n: nat)
    ensures Pow256(n + 8) == 0x1_0000_0000_0000_0000 * Pow256(n)
  {
    assert Pow256(n + 2) == 256 * Pow256(n + 1) == 0x1_0000 * Pow256(n);
    assert Pow256(n + 4) == 256 * Pow256(n + 3) == 0x1_0000 * Pow256(n + 2);
    assert Pow256(n + 6) == 256 * Pow256(n + 5) == 0x1_0000 * Pow256(n + 4);
    assert Pow256(n + 8) == 256 * Pow256(n + 7) == 0x1_0000 * Pow256(n + 6);
  }

  // ---------------------------------------------------------------- words

  function Word(x: U256): (w: Bytes)
    ensures |w| == WORD_SIZE
  {
    BigEndian(x, WORD_SIZE)
  }

  function UintOf(word: Bytes): (x: U256)
    requires |word| == WORD_SIZE
  {
    BigEndianOfValue(word);
    WordsFillLimbs(4);
    Value(word)
  }

  lemma WordRoundTrip(x: U256)
    ensures UintOf(Word(x)) == x
  {
    WordsFillLimbs(4);
    ValueOfBigEndian(x, WORD_SIZE);
  }

  lemma UintRoundTrip(word: Bytes)
    requires |word| == WORD_SIZE
    ensures Word(UintOf(word)) == word
  {
    BigEndianOfValue(word);
  }

  const PADDING: Bytes := [0, 0, 0, 0, 0, 0, 0, 0, 0, 0, 0, 0]

  function AddressWord(a: Address): (w: Bytes)
    requires |a.bytes| == ADDRESS_LENGTH
    ensures |w| == WORD_SIZE
  {
    PADDING + a.bytes
  }

  /** A word whose upper twelve bytes are not zero is no address: the contract reverts. */
  function AddressOf(word: Bytes): (a: Option<Address>)
    requires |word| == WORD_SIZE
    ensures a.Some? ==> |a.value.bytes| == ADDRESS_LENGTH && AddressWord(a.value) == word
    ensures a.None? ==> forall b: Address :: |b.bytes| == ADDRESS_LENGTH ==> AddressWord(b) != word
  {
    if word[..12] == PADDING
    then
      assert word == word[..12] + word[12..];
      Some(Address(word[12..]))
    else
      assert forall b: Address :: |b.bytes| == ADDRESS_LENGTH ==> AddressWord(b)[..12] == PADDING;
      None
  }

  lemma AddressRoundTrip(a: Address)
    requires |a.bytes| == ADDRESS_LENGTH
    ensures AddressOf(AddressWord(a)) == Some(a)
  {
    assert AddressWord(a)[..12] == PADDING && AddressWord(a)[12..] == a.bytes;
  }

  // ---------------------------------------------------------------- the encoder

  class Calldata {
    var data: Bytes

    constructor (selector: Bytes)
      ensures data == selector
    {
      data := selector;
    }

    /** Makes room for one word of zeros. */
    method Grow() returns (offset: nat)
      modifies this
      ensures offset == |old(data)| && |data| == offset + WORD_SIZE
      ensures data[..offset] == old(data)
      ensures forall i :: offset <= i < |data| ==> data[i] == 0
    {
      offset := |data|;
      data := data + seq(WORD_SIZE, _ => 0);
    }

    /** append_uint256_word: the least significant byte is stored last. */
    method AppendUint256Word(value: U256)
      modifies this
      ensures data == old(data) + Word(value)
    {
      ghost var before := data;
      var offset := Grow();
      var rest: nat := value;
      var k: nat := WORD_SIZE;
      while k > 0
        invariant 0 <= k <= WORD_SIZE && |data| == offset + WORD_SIZE
        invariant data[..offset] == before
        invariant BigEndian(rest, k) + data[offset + k..] == Word(value)
        decreases k
      {
        ghost var tail := data[offset + k..];
        data := data[offset + k - 1 := (rest % 256) as Byte];
        assert data[offset + (k - 1)..] == [(rest % 256) as Byte] + tail;
        assert BigEndian(rest, k) + tail == BigEndian(rest / 256, k - 1) + ([(rest % 256) as Byte] + tail);
        rest := rest / 256;
        k := k - 1;
      }
      assert data == data[..offset] + data[offset..];
    }

    /** append_address_word: refuses any address that is not 20 bytes long. */
    method AppendAddressWord(address: Bytes) returns (ok: bool)
      modifies this
      ensures ok == (|address| == ADDRESS_LENGTH)
      ensures ok ==> data == old(data) + AddressWord(Address(address))
      ensures !ok ==> data == old(data)
    {
      if |address| != ADDRESS_LENGTH {
        return false;
      }
      ghost var before := data;
      var offset := Grow();
      var start := offset + WORD_SIZE - ADDRESS_LENGTH;
      for i := 0 to ADDRESS_LENGTH
        invariant |data| == offset + WORD_SIZE
        invariant forall j :: 0 <= j < offset ==> data[j] == before[j]
        invariant forall j :: offset <= j < start ==> data[j] == 0
        invariant forall j :: 0 <= j < i ==> data[start + j] == address[j]
      {
        data := data[start + i := address[i]];
      }
      assert data[..offset] == before && data[offset..start] == PADDING && data[start..] == address;
      assert data == data[..offset] + (data[offset..start] + data[start..]);
      return true;
    }
  }

  predicate Encodable(call: BackrunCall)
  {
    |call.buyPool.bytes| == ADDRESS_LENGTH && |call.sellPool.bytes| == ADDRESS_LENGTH
  }

  function Encoded(call: BackrunCall): (bs: Bytes)
    requires Encodable(call)
    ensures |bs| == 196
  {
    EXECUTE_BACKRUN + AddressWord(call.buyPool) + AddressWord(call.sellPool)
    + Word(call.amountInB) + Word(call.minAmountOutA) + Word(call.minAmountOutB) + Word(call.minProfitB)
  }

  /** encode_execute_backrun as a value. */
  function Encode(call: BackrunCall): (r: Option<Bytes>)
  {
    if Encodable(call) then Some(Encoded(call)) else None
  }

  method EncodeExecuteBackrun(call: BackrunCall) returns (r: Option<Bytes>)
    ensures r == Encode(call)
    ensures r.Some? <==> |call.buyPool.bytes| == 20 && |call.sellPool.bytes| == 20
    ensures r.Some? ==> |r.value| == 196 && DecodeBackrun(r.value) == Some(call)
  {
    var calldata := new Calldata(EXECUTE_BACKRUN);
    var ok := calldata.AppendAddressWord(call.buyPool.bytes);
    if ok {
      ok := calldata.AppendAddressWord(call.sellPool.bytes);
    }
    if !ok {
      return None;
    }
    calldata.AppendUint256Word(call.amountInB);
    calldata.AppendUint256Word(call.minAmountOutA);
    calldata.AppendUint256Word(call.minAmountOutB);
    calldata.AppendUint256Word(call.minProfitB);
    BackrunRoundTrip(call, []);
    assert Encoded(call) + [] == Encoded(call);
    return Some(calldata.data);
  }

  // ---------------------------------------------------------------- the decoders

  function Selector(input: Bytes): Bytes
    requires |input| >= SELECTOR_LENGTH
  {
    input[..SELECTOR_LENGTH]
  }

  /** The i-th argument word after the selector. */
  function Argument(input: Bytes, i: nat): (w: Bytes)
    requires |input| >= SELECTOR_LENGTH + WORD_SIZE * (i + 1)
    ensures |w| == WORD_SIZE
  {
    input[SELECTOR_LENGTH + WORD_SIZE * i..SELECTOR_LENGTH + WORD_SIZE * (i + 1)]
  }

  /** What SandboxBackrun makes of its calldata; bytes after the last argument are ignored. */
  function DecodeBackrun(input: Bytes): Option<BackrunCall>
  {
    if |input| < 196 || Selector(input) != EXECUTE_BACKRUN then None else
    var buyPool :- AddressOf(Argument(input, 0));
    var sellPool :- AddressOf(Argument(input, 1));
    Some(BackrunCall(buyPool, sellPool, UintOf(Argument(input, 2)), UintOf(Argument(input, 3)),
                     UintOf(Argument(input, 4)), UintOf(Argument(input, 5))))
  }

  lemma LeadingArguments(s: Bytes, a: Bytes, b: Bytes, c: Bytes, rest: Bytes)
    requires |s| == SELECTOR_LENGTH && |a| == |b| == |c| == WORD_SIZE
    ensures var input := s + a + b + c + rest;
            Selector(input) == s && Argument(input, 0) == a && Argument(input, 1) == b && Argument(input, 2) == c
  {
  }

  lemma TrailingArguments(front: Bytes, d: Bytes, e: Bytes, f: Bytes, trailing: Bytes)
    requires |front| == 100 && |d| == |e| == |f| == WORD_SIZE
    ensures var input := front + (d + e + f + trailing);
            Argument(input, 3) == d && Argument(input, 4) == e && Argument(input, 5) == f
  {
  }

  lemma EncodedArguments(call: BackrunCall, trailing: Bytes)
    requires Encodable(call)
    ensures var input := Encoded(call) + trailing;
            && |input| >= 196 && Selector(input) == EXECUTE_BACKRUN
            && Argument(input, 0) == AddressWord(call.buyPool)
            && Argument(input, 1) == AddressWord(call.sellPool)
            && Argument(input, 2) == Word(call.amountInB)
            && Argument(input, 3) == Word(call.minAmountOutA)
            && Argument(input, 4) == Word(call.minAmountOutB)
            && Argument(input, 5) == Word(call.minProfitB)
  {
    var a, b, c := AddressWord(call.buyPool), AddressWord(call.sellPool), Word(call.amountInB);
    var d, e, f := Word(call.minAmountOutA), Word(call.minAmountOutB), Word(call.minProfitB);
    var front, rest := EXECUTE_BACKRUN + a + b + c, d + e + f + trailing;
    assert Encoded(call) + trailing == front + rest;
    LeadingArguments(EXECUTE_BACKRUN, a, b, c, rest);
    TrailingArguments(front, d, e, f, trailing);
  }

  lemma BackrunRoundTrip(call: BackrunCall, trailing: Bytes)
    requires Encodable(call)
    ensures DecodeBackrun(Encoded(call) + trailing) == Some(call)
  {
    EncodedArguments(call, trailing);
    AddressRoundTrip(call.buyPool);
    AddressRoundTrip(call.sellPool);
    WordRoundTrip(call.amountInB);
    WordRoundTrip(call.minAmountOutA);
    WordRoundTrip(call.minAmountOutB);
    WordRoundTrip(call.minProfitB);
  }

  /** Whatever the contract accepts is the encoding of what it reads, followed by bytes it ignores. */
  lemma DecodedIsEncoded(input: Bytes, call: BackrunCall)
    requires DecodeBackrun(input) == Some(call)
    ensures Encodable(call) && input == Encoded(call) + input[196..]
  {
    UintRoundTrip(Argument(input, 2));
    UintRoundTrip(Argument(input, 3));
    UintRoundTrip(Argument(input, 4));
    UintRoundTrip(Argument(input, 5));
    SixArguments(input);
  }

  lemma SixArguments(input: Bytes)
    requires |input| >= 196
    ensures input == Selector(input) + Argument(input, 0) + Argument(input, 1) + Argument(input, 2)
                     + Argument(input, 3) + Argument(input, 4) + Argument(input, 5) + input[196..]
  {
  }

  lemma EncodingIsInjective(x: BackrunCall, y: BackrunCall)
    requires Encode(x).Some? && Encode(x) == Encode(y)
    ensures x == y
  {
    BackrunRoundTrip(x, []);
    BackrunRoundTrip(y, []);
  }

  function SwapSelector(kind: SwapKind): (s: Bytes)
    ensures |s| == SELECTOR_LENGTH
  {
    match kind
    case AForB => SWAP_EXACT_A_FOR_B
    case BForA => SWAP_EXACT_B_FOR_A
  }

  function SwapOf(kind: SwapKind, amountIn: U256, minAmountOut: U256): Swap
  {
    match kind
    case AForB => Swap.SwapExactAForB(amountIn, minAmountOut)
    case BForA => Swap.SwapExactBForA(amountIn, minAmountOut)
  }

  /** decode_swap: nothing for short input, a selector of the other kind or missing words. */
  function DecodeSwap(kind: SwapKind, input: Bytes): Option<Swap>
  {
    if |input| <= SELECTOR_LENGTH then None
    else if Selector(input) != SwapSelector(kind) then None
    else if |input| < SELECTOR_LENGTH + 2 * WORD_SIZE then None
    else Some(SwapOf(kind, UintOf(Argument(input, 0)), UintOf(Argument(input, 1))))
  }

  function EncodedSwap(swap: Swap): (bs: Bytes)
  {
    match swap
    case SwapExactAForB(x, min) => SWAP_EXACT_A_FOR_B + Word(x) + Word(min)
    case SwapExactBForA(x, min) => SWAP_EXACT_B_FOR_A + Word(x) + Word(min)
  }

  /** Two words after a selector are all there is in 68 bytes. */
  lemma TwoArguments(input: Bytes, s: Bytes, w0: Bytes, w1: Bytes)
    requires |input| >= 68 && |s| == SELECTOR_LENGTH && |w0| == WORD_SIZE && |w1| == WORD_SIZE
    ensures s + w0 + w1 <= input
            <==> Selector(input) == s && Argument(input, 0) == w0 && Argument(input, 1) == w1
  {
    var front := input[..68];
    assert front == Selector(input) + Argument(input, 0) + Argument(input, 1);
    if s + w0 + w1 <= input {
      assert front == s + w0 + w1;
      assert front[..4] == s && front[4..36] == w0 && front[36..] == w1;
    }
  }

  lemma WordIffUint(word: Bytes, x: U256)
    requires |word| == WORD_SIZE
    ensures word == Word(x) <==> UintOf(word) == x
  {
    UintRoundTrip(word);
    WordRoundTrip(x);
  }

  /** decode_swap recovers exactly the swaps whose encoding the input starts with. */
  lemma DecodeSwapExact(kind: SwapKind, input: Bytes, swap: Swap)
    ensures DecodeSwap(kind, input) == Some(swap)
            <==> EncodedSwap(swap) <= input && (kind == AForB <==> swap.SwapExactAForB?)
  {
    if |input| >= 68 {
      TwoArguments(input, SwapSelector(kind), Word(swap.amountIn), Word(swap.minAmountOut));
      WordIffUint(Argument(input, 0), swap.amountIn);
      WordIffUint(Argument(input, 1), swap.minAmountOut);
    }
  }

  /** The contracts' dispatch: what a transaction to `to` asks for, or nothing when no function
      of the contract there accepts the calldata. */
  function DecodeCall(w: World, to: Address, input: Bytes): Option<Call>
  {
    if |input| < SELECTOR_LENGTH then None
    else if to in w.pools then DecodePoolCall(to, input)
    else if to == w.backrun then DecodeExecutorCall(input)
    else if to in w.tokens then DecodeTokenCall(to, input)
    else None
  }

  function DecodeExecutorCall(input: Bytes): Option<Call>
    requires |input| >= SELECTOR_LENGTH
  {
    if Selector(input) == WITHDRAW_TOKEN then
      if |input| < SELECTOR_LENGTH + 3 * WORD_SIZE then None else
      var token :- AddressOf(Argument(input, 0));
      var to :- AddressOf(Argument(input, 1));
      Some(CWithdraw(token, to, UintOf(Argument(input, 2))))
    else
      var b :- DecodeBackrun(input);
      Some(CBackrun(b.buyPool, b.sellPool, b.amountInB, b.minAmountOutA, b.minAmountOutB, b.minProfitB))
  }

  function DecodeTokenCall(token: Address, input: Bytes): Option<Call>
    requires |input| >= SELECTOR_LENGTH
  {
    if |input| < SELECTOR_LENGTH + 2 * WORD_SIZE then None else
    var a :- AddressOf(Argument(input, 0));
    if Selector(input) == TRANSFER_FROM then
      if |input| < SELECTOR_LENGTH + 3 * WORD_SIZE then None else
      var to :- AddressOf(Argument(input, 1));
      Some(CTransferFrom(token, a, to, UintOf(Argument(input, 2))))
    else
      var amount := UintOf(Argument(input, 1));
      if Selector(input) == MINT then Some(CMint(token, a, amount))
      else if Selector(input) == APPROVE then Some(CApprove(token, a, amount))
      else if Selector(input) == TRANSFER then Some(CTransfer(token, a, amount))
      else None
  }

  function DecodePoolCall(pool: Address, input: Bytes): Option<Call>
    requires |input| >= SELECTOR_LENGTH
  {
    if |input| < SELECTOR_LENGTH + 2 * WORD_SIZE then None
    else
      var x, y := UintOf(Argument(input, 0)), UintOf(Argument(input, 1));
      if Selector(input) == SWAP_EXACT_A_FOR_B then Some(CSwapAForB(pool, x, y))
      else if Selector(input) == SWAP_EXACT_B_FOR_A then Some(CSwapBForA(pool, x, y))
      else if Selector(input) == SEED_LIQUIDITY then Some(CSeed(pool, x, y))
      else None
  }

  function SwapCall(pool: Address, swap: Swap): Call
  {
    match swap
    case SwapExactAForB(x, min) => CSwapAForB(pool, x, min)
    case SwapExactBForA(x, min) => CSwapBForA(pool, x, min)
  }

  /** Knight and the pool read the same swap out of the same calldata: Knight's decoder accepts
      exactly the inputs for which the pool runs a swap of that kind, with the same amounts. */
  lemma DecodersAgree(w: World, pool: Address, kind: SwapKind, input: Bytes)
    requires pool in w.pools
    ensures DecodeSwap(kind, input).Some? ==>
              DecodeCall(w, pool, input) == Some(SwapCall(pool, DecodeSwap(kind, input).value))
    ensures DecodeCall(w, pool, input).Some?
            && (if kind == AForB then DecodeCall(w, pool, input).value.CSwapAForB?
                else DecodeCall(w, pool, input).value.CSwapBForA?)
            ==> DecodeSwap(kind, input).Some?
  {
    assert SWAP_EXACT_A_FOR_B[0] != SWAP_EXACT_B_FOR_A[0];
  }

  /** The composed calldata asks the executor for exactly the encoded call. */
  lemma BackrunReachesExecutor(w: World, call: BackrunCall)
    requires Encodable(call) && w.backrun !in w.pools
    ensures DecodeCall(w, w.backrun, Encoded(call))
            == Some(CBackrun(call.buyPool, call.sellPool, call.amountInB,
                             call.minAmountOutA, call.minAmountOutB, call.minProfitB))
  {
    BackrunRoundTrip(call, []);
    assert Encoded(call) + [] == Encoded(call);
    assert EXECUTE_BACKRUN[0] != WITHDRAW_TOKEN[0];
  }

  /** The only transactions that ask for a withdrawal. */
  predicate AsksWithdrawal(executor: Address, tx: Transaction)
  {
    tx.to == Some(executor) && |tx.input| >= SELECTOR_LENGTH && Selector(tx.input) == WITHDRAW_TOKEN
  }

  lemma WithdrawalAsked(w: World, tx: Transaction, call: Call)
    requires tx.to.Some? && DecodeCall(w, tx.to.value, tx.input) == Some(call) && call.CWithdraw?
    ensures AsksWithdrawal(w.backrun, tx)
  {
  }
}
