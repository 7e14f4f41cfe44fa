/** The `ContractMethod` bridge command and its binary envelope:
    one tag byte naming the variant, followed by the encoding of the
    wrapped `SenderAmount`.

    `SenderAmount` and its own codec are not part of this model. The
    sender/amount pair is an opaque type, and its encoder and decoder are a
    parameter (`PayloadCodec`). Every property that needs the payload codec
    to behave names that assumption (`RoundTrips`, `Canonical`, `FixedWidth`)
    in its `requires`. */
module ContractMethods {
  import opened Wrappers

  newtype u8 = x: int | 0 <= x < 0x100

  /** The (sender, amount) pair every command carries; its layout is not modelled. */
  type SenderAmount(==, !new)

  /** Decoding errors. `Message` is the `codec` error built from a string, as
      for the unknown-tag case; `NotEnoughData` stands for the error
      `read_byte` gives on an exhausted input, which is not modelled further. */
  datatype CodecError =
    | NotEnoughData
    | Message(description: string)

  const UnknownContractMethodType: CodecError := Message("Unknown contract method type")

  /** Number of variants; tags are `0 .. VariantCount - 1`. */
  const VariantCount: u8 := 8

  datatype ContractMethod =
    | DepositToken(sa: SenderAmount)
    | DepositETH(sa: SenderAmount)
    | WithdrawETH(sa: SenderAmount)
    | WithdrawToken(sa: SenderAmount)
    | SwapToToken(sa: SenderAmount)
    | SwapToETH(sa: SenderAmount)
    | AddLiquidity(sa: SenderAmount)
    | RemoveLiquidity(sa: SenderAmount)

  /** Encoder and streaming decoder of `SenderAmount`. The decoder returns the
      value and the unread rest of its input, like `Decode::decode` on a
      `&mut Input`. */
  datatype PayloadCodec = PayloadCodec(
    encode: SenderAmount -> seq<u8>,
    decode: seq<u8> -> Result<(SenderAmount, seq<u8>), CodecError>)

  /** Assumption on `SenderAmount`: decoding an encoding consumes exactly that
      encoding and gives back the value. */
  ghost predicate RoundTrips(pc: PayloadCodec)
  {
    forall sa, rest :: pc.decode(pc.encode(sa) + rest) == Success((sa, rest))
  }

  /** Assumption on `SenderAmount`: whatever the decoder accepts is the
      encoding of what it returns, followed by what it leaves unread. */
  ghost predicate Canonical(pc: PayloadCodec)
  {
    forall bytes :: pc.decode(bytes).Success? ==>
      bytes == pc.encode(pc.decode(bytes).value.0) + pc.decode(bytes).value.1
  }

  /** Assumption on `SenderAmount`: every encoding is `width` bytes long. */
  ghost predicate FixedWidth(pc: PayloadCodec, width: nat)
  {
    forall sa :: |pc.encode(sa)| == width
  }

  /** The tag the encoder writes for each variant. */
  function Tag(c: ContractMethod): (t: u8)
    ensures t < VariantCount
  {
    match c
    case DepositToken(_) => 0
    case DepositETH(_) => 1
    case WithdrawETH(_) => 2
    case WithdrawToken(_) => 3
    case SwapToToken(_) => 4
    case SwapToETH(_) => 5
    case AddLiquidity(_) => 6
    case RemoveLiquidity(_) => 7
  }

  /** The decoder's own tag table: the variant a tag byte stands for, or
      `None` for a tag outside `0 .. 7`. */
  function FromTag(tag: u8, sa: SenderAmount): (r: Option<ContractMethod>)
    ensures r.Some? <==> tag < VariantCount
    ensures r.Some? ==> r.value.sa == sa
  {
    match tag
    case 0 => Some(DepositToken(sa))
    case 1 => Some(DepositETH(sa))
    case 2 => Some(WithdrawETH(sa))
    case 3 => Some(WithdrawToken(sa))
    case 4 => Some(SwapToToken(sa))
    case 5 => Some(SwapToETH(sa))
    case 6 => Some(AddLiquidity(sa))
    case 7 => Some(RemoveLiquidity(sa))
    case _ => None
  }

  /** The encoder's and the decoder's tag tables are inverse to each other. */
  lemma TagTablesAgree(c: ContractMethod, tag: u8, sa: SenderAmount)
    ensures FromTag(Tag(c), c.sa) == Some(c)
    ensures FromTag(tag, sa).Some? ==> Tag(FromTag(tag, sa).value) == tag
  {
  }

  /** A tag followed by the payload's encoding. */
  function EncodeItem(pc: PayloadCodec, tag: u8, sa: SenderAmount): (bytes: seq<u8>)
    ensures |bytes| == 1 + |pc.encode(sa)|
    ensures bytes[0] == tag && bytes[1..] == pc.encode(sa)
  {
    [tag] + pc.encode(sa)
  }

  function Encode(pc: PayloadCodec, c: ContractMethod): (bytes: seq<u8>)
    ensures |bytes| == 1 + |pc.encode(c.sa)|
    ensures bytes[1..] == pc.encode(c.sa)
    ensures c.DepositToken? ==> bytes[0] == 0
    ensures c.DepositETH? ==> bytes[0] == 1
    ensures c.WithdrawETH? ==> bytes[0] == 2
    ensures c.WithdrawToken? ==> bytes[0] == 3
    ensures c.SwapToToken? ==> bytes[0] == 4
    ensures c.SwapToETH? ==> bytes[0] == 5
    ensures c.AddLiquidity? ==> bytes[0] == 6
    ensures c.RemoveLiquidity? ==> bytes[0] == 7
  {
    EncodeItem(pc, Tag(c), c.sa)
  }

  /** Reads the tag byte, then the payload, and only then looks the tag up:
      a malformed payload is reported even when the tag is also bad. */
  function Decode(pc: PayloadCodec, input: seq<u8>): (r: Result<(ContractMethod, seq<u8>), CodecError>)
    ensures |input| == 0 ==> r == Failure(NotEnoughData)
    ensures |input| > 0 && pc.decode(input[1..]).Failure? ==>
      r == Failure(pc.decode(input[1..]).error)
    ensures |input| > 0 && pc.decode(input[1..]).Success? && input[0] >= VariantCount ==>
      r == Failure(UnknownContractMethodType)
    ensures r.Success? <==>
      |input| > 0 && input[0] < VariantCount && pc.decode(input[1..]).Success?
    ensures r.Success? ==>
      && Tag(r.value.0) == input[0]
      && r.value.0.sa == pc.decode(input[1..]).value.0
      && r.value.1 == pc.decode(input[1..]).value.1
  {
    if |input| == 0 then Failure(NotEnoughData)
    else
      var tag := input[0];
      match pc.decode(input[1..])
      case Failure(e) => Failure(e)
      case Success((sa, rest)) =>
        match FromTag(tag, sa)
        case None => Failure(UnknownContractMethodType)
        case Some(c) =>
          TagTablesAgree(c, tag, sa);
          Success((c, rest))
  }

  /** Round trip: the decoder reads back exactly what the encoder wrote, and
      leaves whatever follows it unread. */
  lemma DecodeEncode(pc: PayloadCodec, c: ContractMethod, rest: seq<u8>)
    requires RoundTrips(pc)
    ensures Decode(pc, Encode(pc, c) + rest) == Success((c, rest))
  {
    var bytes := Encode(pc, c) + rest;
    assert bytes[1..] == pc.encode(c.sa) + rest;
    assert pc.decode(bytes[1..]) == Success((c.sa, rest));
    TagTablesAgree(c, Tag(c), c.sa);
  }

  /** The other direction: whatever the decoder accepts is the encoding of the
      command it returns, followed by the unread rest. */
  lemma EncodeDecode(pc: PayloadCodec, input: seq<u8>)
    requires Canonical(pc)
    requires Decode(pc, input).Success?
    ensures input == Encode(pc, Decode(pc, input).value.0) + Decode(pc, input).value.1
  {
    // The tag byte is the decoded command's tag, and by `Canonical` the
    // remaining bytes are the payload's encoding followed by the rest.
  }

  /** Commands of different variants never share an encoding, whatever their
      payloads. (Two distinct commands with the same payload are always of
      different variants, so they are covered too.) */
  lemma DistinctVariantsEncodeDistinctly(pc: PayloadCodec, c1: ContractMethod, c2: ContractMethod)
    requires Tag(c1) != Tag(c2)
    ensures Encode(pc, c1)[0] != Encode(pc, c2)[0]
    ensures Encode(pc, c1) != Encode(pc, c2)
  {
  }

  /** With a round-tripping payload codec, `Encode` is injective. */
  lemma EncodeInjective(pc: PayloadCodec, c1: ContractMethod, c2: ContractMethod)
    requires RoundTrips(pc)
    requires Encode(pc, c1) == Encode(pc, c2)
    ensures c1 == c2
  {
    DecodeEncode(pc, c1, []);
    DecodeEncode(pc, c2, []);
    assert Encode(pc, c1) + [] == Encode(pc, c1);
    assert Encode(pc, c2) + [] == Encode(pc, c2);
  }

  /** A tag of 8 or more is rejected whenever the payload decodes; the rest of
      the buffer never turns an unknown tag into a command. */
  lemma UnknownTagRejected(pc: PayloadCodec, tag: u8, sa: SenderAmount, rest: seq<u8>)
    requires RoundTrips(pc)
    requires tag >= VariantCount
    ensures Decode(pc, [tag] + pc.encode(sa) + rest) == Failure(UnknownContractMethodType)
  {
    var input := [tag] + pc.encode(sa) + rest;
    assert input[1..] == pc.encode(sa) + rest;
  }

  /** For a fixed-width payload, a buffer shorter than one tag byte plus the
      payload width never decodes. */
  lemma TruncatedInputRejected(pc: PayloadCodec, width: nat, input: seq<u8>)
    requires Canonical(pc) && FixedWidth(pc, width)
    requires |input| < 1 + width
    ensures Decode(pc, input).Failure?
  {
    // A decodable input is an encoding plus a rest (`EncodeDecode`), and every
    // encoding is 1 + width bytes long.
  }

  /** A label is a bracketed operation name: `[` first, `]` last and nowhere
      else. */
  predicate Bracketed(s: string)
  {
    && |s| >= 2
    && s[0] == '['
    && s[|s| - 1] == ']'
    && forall k :: 0 <= k < |s| - 1 ==> s[k] != ']'
  }

  /** The operation name `Display` prints in front of sender and amount. */
  function Label(c: ContractMethod): (name: string)
    ensures Bracketed(name)
  {
    match c
    case DepositToken(_) => "[Deposit Token]"
    case DepositETH(_) => "[Deposit ETH]"
    case WithdrawETH(_) => "[Withdraw ETH]"
    case WithdrawToken(_) => "[Withdraw Token]"
    case SwapToToken(_) => "[Swap to Token]"
    case SwapToETH(_) => "[Swap to ETH]"
    case AddLiquidity(_) => "[Add liquidity]"
    case RemoveLiquidity(_) => "[Remove liquidity]"
  }

  /** Each variant has its own label. */
  lemma LabelsDistinct(c1: ContractMethod, c2: ContractMethod)
    ensures Label(c1) == Label(c2) <==> Tag(c1) == Tag(c2)
  {
  }

  /** The log line of a command; `from` and `amount` are the texts the
      sender and the amount render as. */
  function Display(c: ContractMethod, from: string, amount: string): (line: string)
    ensures |line| > |Label(c)| && line[..|Label(c)|] == Label(c)
  {
    Label(c) + (": from: " + from + ", amount: " + amount)
  }

  /** The log line names the variant unambiguously, whatever sender and
      amount texts follow the label. */
  lemma DisplayDeterminesVariant(c1: ContractMethod, from1: string, amount1: string,
                                 c2: ContractMethod, from2: string, amount2: string)
    requires Display(c1, from1, amount1) == Display(c2, from2, amount2)
    ensures Tag(c1) == Tag(c2)
  {
    // Labels are bracketed, so neither can be a proper prefix of the other's
    // line; equal labels mean equal variants (`LabelsDistinct`).
  }
}
