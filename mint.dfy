/**
 * The create-and-mint page: the form state (name, description, image CID,
 * attribute rows, royalty fee), its guarded setters, and the single-mint
 * pipeline that uploads the metadata document, calls `mintItem` on the
 * collectible contract, reads the transaction receipt and saves a record of
 * the new token to the database.
 */
module Mint {
  import opened Wrappers
  import opened Numerals
  import Calendar

  type Address = string
  type Cid = string
  type TxHash = string

  // ------------------------------------------------------------ attributes

  /** One row of the attribute editor: `{ trait_type, value }`. */
  datatype Attribute = Attribute(traitType: string, value: string)

  /** The two editable fields of a row. */
  datatype Field = TraitType | Value

  /** The row the editor starts with and appends. */
  const BlankAttribute: Attribute := Attribute("", "")

  /** `{ ...a, [field]: v }`: the row with one field replaced. */
  function WithField(a: Attribute, field: Field, v: string): (r: Attribute)
    ensures field == TraitType ==> r.traitType == v && r.value == a.value
    ensures field == Value ==> r.value == v && r.traitType == a.traitType
  {
    match field
    case TraitType => a.(traitType := v)
    case Value => a.(value := v)
  }

  // ------------------------------------------------------------ royalty fee

  /** The largest fee the form accepts. Fees are numerators over 10,000, so
      this is 10% of a sale and the initial 250 is 2.5%. */
  const MaxRoyaltyFee: int := 1000
  const InitialRoyaltyFee: int := 250

  // ------------------------------------------------------------ metadata

  /** The gateway the metadata document's `image` link points at. */
  const ImageGateway: string := "https://aqua-famous-koala-370.mypinata.cloud/ipfs/"

  /** The metadata document uploaded for a token. */
  datatype Metadata = Metadata(name: string, description: string, image: string, attributes: seq<Attribute>)

  /** The CID an `image` link refers to, when it is a link through the gateway. */
  function ImageCidOf(image: string): (r: Option<Cid>)
    ensures r.Some? ==> image == ImageGateway + r.value
  {
    if |ImageGateway| <= |image| && image[..|ImageGateway|] == ImageGateway
    then Some(image[|ImageGateway|..])
    else None
  }

  /** The document uploaded for a form: name, description and attribute rows
      as they are (blank rows and order included), and an image link that
      leads back to exactly the image CID. */
  function BuildMetadata(name: string, description: string, imageCid: Cid, attributes: seq<Attribute>): (m: Metadata)
    ensures m.name == name && m.description == description && m.attributes == attributes
    ensures ImageCidOf(m.image) == Some(imageCid)
  {
    var image := ImageGateway + imageCid;
    assert image[..|ImageGateway|] == ImageGateway;
    assert image[|ImageGateway|..] == imageCid;
    Metadata(name, description, image, attributes)
  }

  // ------------------------------------------------------------ receipt

  /** A log entry of a transaction receipt; topics are `0x`-prefixed words. */
  datatype Log = Log(topics: seq<string>)
  datatype Receipt = Receipt(logs: seq<Log>)

  /** Position of the indexed `tokenId` in the topics of the ERC-721
      `Transfer(from, to, tokenId)` event (topic 0 is the event signature). */
  const TokenIdTopic: nat := 3

  /**
   * `receipt?.logs[0].topics[3]`: nothing when there is no receipt or when the
   * first log has fewer than four topics; `Fail` stands for the TypeError
   * thrown when the receipt has no log at all.
   */
  function TokenTopic(receipt: Option<Receipt>): (r: Result<Option<string>>)
    ensures r.Fail? <==> receipt.Some? && receipt.value.logs == []
    ensures r.Ok? && r.value.Some? <==>
      receipt.Some? && receipt.value.logs != [] && TokenIdTopic < |receipt.value.logs[0].topics|
    ensures r.Ok? && r.value.Some? ==> r.value.value == receipt.value.logs[0].topics[TokenIdTopic]
  {
    match receipt
    case None => Ok(None)
    case Some(rc) =>
      if rc.logs == [] then Fail
      else if TokenIdTopic < |rc.logs[0].topics| then Ok(Some(rc.logs[0].topics[TokenIdTopic]))
      else Ok(None)
  }

  /** How the ledger writes an indexed `uint256` into a topic: a 32-byte word,
      `0x` followed by 64 lower-case hexadecimal digits. */
  function TopicWord(n: nat): (w: string)
    requires n < Pow16(64)
    ensures |w| == 66
  {
    "0x" + HexDigits(n, 64)
  }

  /** Reading a topic word back as a hexadecimal number gives the token id. */
  lemma TopicWordParses(n: nat)
    requires n < Pow16(64)
    ensures ParseInt16(TopicWord(n)) == Some(n)
  {
    var w := TopicWord(n);
    var digits := HexDigits(n, 64);
    assert StripHexPrefix(w) == digits;
    assert digits[..64] == digits;
    HexValueOfDigits(n, 64);
  }

  // ------------------------------------------------------------ mint time

  /** The fixed shift applied to the capture instant: eight hours, in ms. */
  const ShiftMillis: nat := 8 * 3600 * 1000

  /** Instants (ms since the epoch) whose shifted value still has a
      four-digit year in its ISO string. */
  predicate Renderable(now: nat) {
    Calendar.InFourDigitYears((now + ShiftMillis) / 1000)
  }

  /** The capture instant moved eight hours forward, as a date and time to
      the second. */
  function ShiftedDateTime(now: nat): (t: Calendar.DateTime)
    requires Renderable(now)
    ensures Calendar.ValidDateTime(t)
    ensures Calendar.EpochSeconds(t) == (now + ShiftMillis) / 1000
  {
    Calendar.ToDateTime((now + ShiftMillis) / 1000)
  }

  /** The stored mint time: the shifted instant in the stored layout,
      `YYYY-MM-DD HH:MM:SS`. */
  function MintTimestamp(now: nat): (s: string)
    requires Renderable(now)
    ensures Calendar.IsStoredLayout(s)
  {
    Calendar.StoredString(ShiftedDateTime(now))
  }

  /** The stored mint time is what the handler writes: the shifted instant by
      `toISOString`, cut to 19 characters, with its `T` replaced by a space. */
  lemma MintTimestampIsIsoHead(now: nat)
    requires Renderable(now)
    ensures var shifted := now + ShiftMillis;
      MintTimestamp(now)
      == Calendar.ReplaceFirst(Calendar.IsoString(ShiftedDateTime(now), shifted % 1000)[..19], 'T', ' ')
  {
    Calendar.IsoHeadIsStored(ShiftedDateTime(now), (now + ShiftMillis) % 1000);
  }

  /** The stored string names the capture instant plus eight hours, to the
      second: read back as a date and time, it is that many seconds after the
      epoch. */
  lemma {:induction false} MintTimestampIsShiftedInstant(now: nat)
    requires Renderable(now)
    ensures var t := Calendar.ParseStored(MintTimestamp(now));
      t.Some? && Calendar.ValidDateTime(t.value)
      && Calendar.EpochSeconds(t.value) == (now + ShiftMillis) / 1000
  {
    Calendar.StoredStringRoundTrip(ShiftedDateTime(now));
  }

  // ------------------------------------------------------------ database record

  /** A row of the NFT table. `nftId` is `None` where `parseInt` gave NaN. */
  datatype NftRecord = NftRecord(
    nftId: Option<nat>, tokenUri: Cid, mintItem: string,
    owner: Address, state: int, royaltyFeeNumerator: int)

  /** The state a freshly minted token is recorded in. */
  const InitialState: int := 0

  /** The row saved for a minted token: the id `parseInt` reads from the
      topic (absent when the topic holds no hexadecimal digit), the metadata
      CID, the mint time, the owner, the initial state and the fee. */
  function BuildRecord(topic: string, tokenUri: Cid, mintTime: string, owner: Address, royaltyFee: int): (r: NftRecord)
    ensures r.nftId.None? <==> var body := StripHexPrefix(topic); body == [] || !IsHexDigit(body[0])
    ensures r.tokenUri == tokenUri && r.mintItem == mintTime && r.owner == owner
    ensures r.state == InitialState && r.royaltyFeeNumerator == royaltyFee
  {
    NftRecord(ParseInt16(topic), tokenUri, mintTime, owner, InitialState, royaltyFee)
  }

  /** A record built from the topic of a minted token carries its id. */
  lemma RecordCarriesTokenId(n: nat, tokenUri: Cid, mintTime: string, owner: Address, royaltyFee: int)
    requires n < Pow16(64)
    ensures var r := BuildRecord(TopicWord(n), tokenUri, mintTime, owner, royaltyFee);
      r.nftId == Some(n) && r.tokenUri == tokenUri && r.owner == owner
      && r.state == InitialState && r.royaltyFeeNumerator == royaltyFee
  {
    TopicWordParses(n);
  }

  // ------------------------------------------------------------ services

  /**
   * The collaborators the pipeline awaits, each an abstract step that answers
   * a value or fails: the metadata upload, the contract write, the receipt
   * read (only when a public client exists) and the database write.
   */
  datatype Services = Services(
    addToIpfs: Metadata -> Result<Cid>,
    mintItem: (Address, Cid, int) -> Result<TxHash>,
    hasPublicClient: bool,
    getTransactionReceipt: TxHash -> Result<Receipt>,
    saveNftToDb: NftRecord -> Result<()>)

  /** A call the pipeline makes to a collaborator, with its arguments. */
  datatype Call =
    | AddToIpfs(metadata: Metadata)
    | MintItem(recipient: Address, tokenUri: Cid, royaltyFee: int)
    | GetTransactionReceipt(hash: TxHash)
    | SaveNftToDb(record: NftRecord)

  /** What the user is told: missing input, a failed step, or success. */
  datatype MintOutcome = Rejected | Failed | Minted

  predicate Succeeds(s: Services, c: Call) {
    match c
    case AddToIpfs(m) => s.addToIpfs(m).Ok?
    case MintItem(to, uri, fee) => s.mintItem(to, uri, fee).Ok?
    case GetTransactionReceipt(h) => s.getTransactionReceipt(h).Ok?
    case SaveNftToDb(r) => s.saveNftToDb(r).Ok?
  }

  /** The step of the pipeline a call belongs to. */
  function StepOf(c: Call): (step: nat) {
    match c
    case AddToIpfs(_) => 0
    case MintItem(_, _, _) => 1
    case GetTransactionReceipt(_) => 2
    case SaveNftToDb(_) => 3
  }

  /** Upload, contract call, receipt read, database write: each call belongs
      to a later step than the one before it, so the steps come in this order
      and each at most once. */
  predicate InPipelineOrder(calls: seq<Call>) {
    forall i :: 0 < i < |calls| ==> StepOf(calls[i - 1]) < StepOf(calls[i])
  }

  /**
   * How each call of a run follows from the calls before it and their
   * answers: the contract call takes the connected address, the CID the
   * upload answered and the fee; the receipt read takes the hash the
   * contract call answered and needs a public client; the record saved is
   * built from the token topic of the receipt read, the metadata CID, the
   * mint time, the owner and the fee, and only for a non-empty topic.
   */
  predicate Follows(s: Services, connected: Address, fee: int, stamp: string, before: seq<Call>, c: Call) {
    match c
    case AddToIpfs(_) => before == []
    case MintItem(to, uri, f) =>
      |before| == 1 && before[0].AddToIpfs? && s.addToIpfs(before[0].metadata) == Ok(uri)
      && to == connected && f == fee
    case GetTransactionReceipt(h) =>
      s.hasPublicClient && |before| == 2 && before[1].MintItem?
      && s.mintItem(before[1].recipient, before[1].tokenUri, before[1].royaltyFee) == Ok(h)
    case SaveNftToDb(r) =>
      2 <= |before| && before[1].MintItem?
      && var topic := TokenTopic(ReceiptRead(s, before));
      topic.Ok? && topic.value.Some? && topic.value.value != ""
      && r == BuildRecord(topic.value.value, before[1].tokenUri, stamp, connected, fee)
  }

  /** The receipt a run has read so far: the answer to its receipt call,
      or nothing when it made none. */
  function ReceiptRead(s: Services, calls: seq<Call>): (receipt: Option<Receipt>) {
    if 3 <= |calls| && calls[2].GetTransactionReceipt? && s.getTransactionReceipt(calls[2].hash).Ok?
    then Some(s.getTransactionReceipt(calls[2].hash).value)
    else None
  }

  /** Whether a run that made `calls` with every call answered went as far as
      it could: contract called, receipt read exactly when a public client
      exists, and a record saved exactly when the receipt names a token. */
  predicate Completed(s: Services, calls: seq<Call>) {
    && 2 <= |calls| && calls[1].MintItem?
    && (s.hasPublicClient <==> 3 <= |calls| && calls[2].GetTransactionReceipt?)
    && var topic := TokenTopic(ReceiptRead(s, calls));
    && topic.Ok?
    && ((topic.value.Some? && topic.value.value != "") <==> calls[|calls| - 1].SaveNftToDb?)
  }

  predicate AllSucceed(s: Services, calls: seq<Call>) {
    forall i :: 0 <= i < |calls| ==> Succeeds(s, calls[i])
  }

  /** Call `i` of a run follows from the calls before it. */
  predicate FollowsAt(s: Services, connected: Address, fee: int, stamp: string, calls: seq<Call>, i: nat)
    requires i < |calls|
  {
    Follows(s, connected, fee, stamp, calls[..i], calls[i])
  }

  /** Every call of the run follows from the ones before it. */
  predicate FedRun(s: Services, connected: Address, fee: int, stamp: string, calls: seq<Call>) {
    forall i: nat :: i < |calls| ==> FollowsAt(s, connected, fee, stamp, calls, i)
  }

  lemma FedRunExtend(s: Services, connected: Address, fee: int, stamp: string, calls: seq<Call>, c: Call)
    requires FedRun(s, connected, fee, stamp, calls)
    requires Follows(s, connected, fee, stamp, calls, c)
    ensures FedRun(s, connected, fee, stamp, calls + [c])
  {
    var ext := calls + [c];
    forall i: nat | i < |ext|
      ensures FollowsAt(s, connected, fee, stamp, ext, i)
    {
      if i < |calls| {
        assert FollowsAt(s, connected, fee, stamp, calls, i);
        assert ext[..i] == calls[..i];
      } else {
        assert ext[..i] == calls;
      }
    }
  }

  /**
   * The run of the mint pipeline once the form is complete, as the answer the
   * user is told and the calls made in order: upload the metadata, call the
   * contract with the connected address, the CID and the fee, read the
   * receipt when a public client exists, and save a record when the receipt
   * names a token. The first failing call ends the run as a failure; a
   * receipt without logs is a failure too.
   */
  function Pipeline(s: Services, connected: Address, fee: int, stamp: string, metadata: Metadata): (r: (MintOutcome, seq<Call>))
    ensures r.0 != Rejected
    ensures 1 <= |r.1| <= 4 && r.1[0] == AddToIpfs(metadata)
  {
    var upload := AddToIpfs(metadata);
    var uploaded := s.addToIpfs(metadata);
    if uploaded.Fail? then (Failed, [upload]) else
    var mint := MintItem(connected, uploaded.value, fee);
    var mintTx := s.mintItem(connected, uploaded.value, fee);
    if mintTx.Fail? then (Failed, [upload, mint]) else
    var read := GetTransactionReceipt(mintTx.value);
    if s.hasPublicClient && s.getTransactionReceipt(mintTx.value).Fail? then (Failed, [upload, mint, read]) else
    var sofar := if s.hasPublicClient then [upload, mint, read] else [upload, mint];
    var receipt := if s.hasPublicClient then Some(s.getTransactionReceipt(mintTx.value).value) else None;
    var topic := TokenTopic(receipt);
    if topic.Fail? then (Failed, sofar)
    else if topic.value.None? || topic.value.value == "" then (Minted, sofar)
    else
      var save := SaveNftToDb(BuildRecord(topic.value.value, uploaded.value, stamp, connected, fee));
      (if s.saveNftToDb(save.record).Ok? then Minted else Failed, sofar + [save])
  }

  /** Each call of a run is fed by the ones before it. */
  lemma PipelineFed(s: Services, connected: Address, fee: int, stamp: string, metadata: Metadata)
    ensures FedRun(s, connected, fee, stamp, Pipeline(s, connected, fee, stamp, metadata).1)
  {
    var calls := Pipeline(s, connected, fee, stamp, metadata).1;
    var upload := AddToIpfs(metadata);
    FedRunExtend(s, connected, fee, stamp, [], upload);
    var uploaded := s.addToIpfs(metadata);
    if uploaded.Fail? {
      assert calls == [upload];
      return;
    }
    var mint := MintItem(connected, uploaded.value, fee);
    FedRunExtend(s, connected, fee, stamp, [upload], mint);
    var mintTx := s.mintItem(connected, uploaded.value, fee);
    if mintTx.Fail? {
      assert calls == [upload, mint];
      return;
    }
    var read := GetTransactionReceipt(mintTx.value);
    var sofar := [upload, mint];
    if s.hasPublicClient {
      FedRunExtend(s, connected, fee, stamp, sofar, read);
      sofar := [upload, mint, read];
      if s.getTransactionReceipt(mintTx.value).Fail? {
        assert calls == sofar;
        return;
      }
    }
    if |calls| == |sofar| {
      assert calls == sofar;
    } else {
      var save := calls[|sofar|];
      assert calls == sofar + [save];
      assert ReceiptRead(s, sofar) == ReceiptRead(s, calls);
      FedRunExtend(s, connected, fee, stamp, sofar, save);
    }
  }

  /** A run goes through the steps in order, each at most once. */
  lemma PipelineOrdered(s: Services, connected: Address, fee: int, stamp: string, metadata: Metadata)
    ensures InPipelineOrder(Pipeline(s, connected, fee, stamp, metadata).1)
  {
    var calls := Pipeline(s, connected, fee, stamp, metadata).1;
    forall i | 0 < i < |calls|
      ensures StepOf(calls[i - 1]) < StepOf(calls[i])
    {
      PipelineStepAt(s, connected, fee, stamp, metadata, i - 1);
      PipelineStepAt(s, connected, fee, stamp, metadata, i);
    }
  }

  /** Call `i` of a run belongs to step `i`, except that a run without a
      receipt read saves its record as its third call. */
  lemma PipelineStepAt(s: Services, connected: Address, fee: int, stamp: string, metadata: Metadata, i: nat)
    requires i < |Pipeline(s, connected, fee, stamp, metadata).1|
    ensures var calls := Pipeline(s, connected, fee, stamp, metadata).1;
      StepOf(calls[i]) == if i == 2 && !s.hasPublicClient then 3 else i
  {
    var calls := Pipeline(s, connected, fee, stamp, metadata).1;
    var uploaded := s.addToIpfs(metadata);
    if uploaded.Fail? {
      return;
    }
    var mintTx := s.mintItem(connected, uploaded.value, fee);
    if mintTx.Fail? || (s.hasPublicClient && s.getTransactionReceipt(mintTx.value).Fail?) {
      return;
    }
    var sofar := calls[..if s.hasPublicClient then 3 else 2];
    assert sofar[0].AddToIpfs? && sofar[1].MintItem?;
    assert s.hasPublicClient ==> sofar[2].GetTransactionReceipt?;
    if i == |sofar| {
      assert calls[i].SaveNftToDb?;
    }
  }

  /** Every call but the last succeeded, and a run whose last call failed is
      reported as a failure. */
  lemma PipelineStopsAtFailure(s: Services, connected: Address, fee: int, stamp: string, metadata: Metadata)
    ensures var r := Pipeline(s, connected, fee, stamp, metadata);
      && (forall i :: 0 <= i < |r.1| - 1 ==> Succeeds(s, r.1[i]))
      && (!Succeeds(s, r.1[|r.1| - 1]) ==> r.0 == Failed)
  {
    var r := Pipeline(s, connected, fee, stamp, metadata);
    var upload := AddToIpfs(metadata);
    var uploaded := s.addToIpfs(metadata);
    if uploaded.Fail? {
      assert r.1 == [upload];
      return;
    }
    var mint := MintItem(connected, uploaded.value, fee);
    var mintTx := s.mintItem(connected, uploaded.value, fee);
    if mintTx.Fail? {
      assert r.1 == [upload, mint];
      return;
    }
    var read := GetTransactionReceipt(mintTx.value);
    if s.hasPublicClient && s.getTransactionReceipt(mintTx.value).Fail? {
      assert r.1 == [upload, mint, read];
      return;
    }
    var sofar := if s.hasPublicClient then [upload, mint, read] else [upload, mint];
    assert forall i :: 0 <= i < |sofar| ==> Succeeds(s, sofar[i]);
    if |r.1| == |sofar| {
      assert r.1 == sofar;
    } else {
      assert r.1 == sofar + [r.1[|sofar|]];
    }
  }

  /** A run is reported as minted exactly when every call succeeded and the
      run went as far as it could. */
  lemma PipelineMinted(s: Services, connected: Address, fee: int, stamp: string, metadata: Metadata)
    ensures var r := Pipeline(s, connected, fee, stamp, metadata);
      r.0 == Minted <==> AllSucceed(s, r.1) && Completed(s, r.1)
  {
    var r := Pipeline(s, connected, fee, stamp, metadata);
    var upload := AddToIpfs(metadata);
    var uploaded := s.addToIpfs(metadata);
    if uploaded.Fail? {
      assert !Succeeds(s, r.1[0]);
      return;
    }
    var mint := MintItem(connected, uploaded.value, fee);
    var mintTx := s.mintItem(connected, uploaded.value, fee);
    if mintTx.Fail? {
      assert !Succeeds(s, r.1[1]);
      return;
    }
    var read := GetTransactionReceipt(mintTx.value);
    if s.hasPublicClient && s.getTransactionReceipt(mintTx.value).Fail? {
      assert !Succeeds(s, r.1[2]);
      return;
    }
    var sofar := if s.hasPublicClient then [upload, mint, read] else [upload, mint];
    var receipt := if s.hasPublicClient then Some(s.getTransactionReceipt(mintTx.value).value) else None;
    assert r.1[..|sofar|] == sofar;
    assert ReceiptRead(s, r.1) == receipt;
    var topic := TokenTopic(receipt);
    if topic.Fail? || topic.value.None? || topic.value.value == "" {
      assert r.1 == sofar;
    } else {
      assert r.1 == sofar + [r.1[|sofar|]];
    }
  }

  /** A run reported as a failure ended on a failing call or on a receipt
      without logs: once its calls succeed and the receipt has a log, the run
      keeps going, and a missing token topic still ends in success. */
  lemma PipelineFailsOnlyOnError(s: Services, connected: Address, fee: int, stamp: string, metadata: Metadata)
    ensures var r := Pipeline(s, connected, fee, stamp, metadata);
      r.0 == Failed ==> !Succeeds(s, r.1[|r.1| - 1]) || TokenTopic(ReceiptRead(s, r.1)).Fail?
  {
    var r := Pipeline(s, connected, fee, stamp, metadata);
    var uploaded := s.addToIpfs(metadata);
    if uploaded.Fail? {
      return;
    }
    var mintTx := s.mintItem(connected, uploaded.value, fee);
    if mintTx.Fail? || (s.hasPublicClient && s.getTransactionReceipt(mintTx.value).Fail?) {
      return;
    }
    var sofar := r.1[..if s.hasPublicClient then 3 else 2];
    assert sofar[1].MintItem? && (s.hasPublicClient ==> sofar[2].GetTransactionReceipt?);
    assert ReceiptRead(s, r.1) == ReceiptRead(s, sofar);
  }

  /** Every call of a run that carries a fee carries the one it was given. */
  lemma PipelineCarriesFee(s: Services, connected: Address, fee: int, stamp: string, metadata: Metadata)
    ensures var calls := Pipeline(s, connected, fee, stamp, metadata).1;
      && (forall c | c in calls && c.MintItem? :: c.royaltyFee == fee)
      && (forall c | c in calls && c.SaveNftToDb? :: c.record.royaltyFeeNumerator == fee)
  {
    var calls := Pipeline(s, connected, fee, stamp, metadata).1;
    forall i | 0 <= i < |calls|
      ensures calls[i].MintItem? ==> calls[i].royaltyFee == fee
      ensures calls[i].SaveNftToDb? ==> calls[i].record.royaltyFeeNumerator == fee
    {
      PipelineStepAt(s, connected, fee, stamp, metadata, i);
    }
  }

  /** Runs the pipeline against the collaborators, one awaited call after
      another. */
  method RunPipeline(s: Services, connected: Address, fee: int, stamp: string, metadata: Metadata)
    returns (outcome: MintOutcome, calls: seq<Call>)
    ensures outcome == Pipeline(s, connected, fee, stamp, metadata).0
    ensures calls == Pipeline(s, connected, fee, stamp, metadata).1
  {
    var upload := AddToIpfs(metadata);
    calls := [upload];
    var uploaded := s.addToIpfs(metadata);
    if uploaded.Fail? {
      return Failed, calls;
    }
    var tokenUri := uploaded.value;
    calls := calls + [MintItem(connected, tokenUri, fee)];
    var mintTx := s.mintItem(connected, tokenUri, fee);
    if mintTx.Fail? {
      return Failed, calls;
    }
    var receipt: Option<Receipt> := None;
    if s.hasPublicClient {
      calls := calls + [GetTransactionReceipt(mintTx.value)];
      var fetched := s.getTransactionReceipt(mintTx.value);
      if fetched.Fail? {
        return Failed, calls;
      }
      receipt := Some(fetched.value);
    }
    var nftId := TokenTopic(receipt);
    if nftId.Fail? {
      return Failed, calls;
    }
    if nftId.value.Some? && nftId.value.value != "" {
      var data := BuildRecord(nftId.value.value, tokenUri, stamp, connected, fee);
      calls := calls + [SaveNftToDb(data)];
      if s.saveNftToDb(data).Fail? {
        return Failed, calls;
      }
    }
    outcome := Minted;
  }

  // ------------------------------------------------------------ the page

  class CreateNftPage {
    var name: string
    var description: string
    var imageCid: Option<Cid>
    var attributes: seq<Attribute>
    var royaltyFee: int

    /** The fee never passes the cap and the editor always shows a row. */
    ghost predicate Valid()
      reads this
    {
      royaltyFee <= MaxRoyaltyFee && |attributes| >= 1
    }

    constructor ()
      ensures Valid()
      ensures name == "" && description == "" && imageCid == None
      ensures attributes == [BlankAttribute] && royaltyFee == InitialRoyaltyFee
    {
      name, description, imageCid := "", "", None;
      attributes := [BlankAttribute];
      royaltyFee := InitialRoyaltyFee;
    }

    method SetName(v: string)
      modifies this`name
      ensures name == v
    {
      name := v;
    }

    method SetDescription(v: string)
      modifies this`description
      ensures description == v
    {
      description := v;
    }

    /** A chosen file is uploaded; only an answer carrying a (non-empty) hash
        sets the image CID, anything else leaves it as it was. */
    method HandleFileChange(file: Option<seq<bv8>>, uploadFileToIpfs: seq<bv8> -> Result<Cid>)
      modifies this`imageCid
      ensures file.Some? && uploadFileToIpfs(file.value).Ok? && uploadFileToIpfs(file.value).value != ""
        ==> imageCid == Some(uploadFileToIpfs(file.value).value)
      ensures !(file.Some? && uploadFileToIpfs(file.value).Ok? && uploadFileToIpfs(file.value).value != "")
        ==> imageCid == old(imageCid)
    {
      if file.None? {
        return;
      }
      var uploaded := uploadFileToIpfs(file.value);
      if uploaded.Ok? && uploaded.value != "" {
        imageCid := Some(uploaded.value);
      }
    }

    /** Edits one field of row `index`; the row's other field, every other
        row and the number of rows stay as they were. */
    method HandleAttributeChange(index: nat, field: Field, v: string)
      requires Valid() && index < |attributes|
      modifies this`attributes
      ensures Valid()
      ensures |attributes| == |old(attributes)|
      ensures field == TraitType ==>
        attributes[index].traitType == v && attributes[index].value == old(attributes[index].value)
      ensures field == Value ==>
        attributes[index].value == v && attributes[index].traitType == old(attributes[index].traitType)
      ensures forall j :: 0 <= j < |attributes| && j != index ==> attributes[j] == old(attributes[j])
    {
      var updated := attributes;
      updated := updated[index := WithField(updated[index], field, v)];
      attributes := updated;
    }

    /** Appends exactly one blank row after the existing ones. */
    method AddNewAttribute()
      requires Valid()
      modifies this`attributes
      ensures Valid()
      ensures attributes == old(attributes) + [BlankAttribute]
    {
      attributes := attributes + [BlankAttribute];
    }

    /** A value up to the cap (negative ones included) replaces the fee; a
        larger one is refused and leaves it unchanged. */
    method HandleRoyaltyFeeChange(v: int) returns (refused: bool)
      requires Valid()
      modifies this`royaltyFee
      ensures Valid()
      ensures refused <==> v > MaxRoyaltyFee
      ensures royaltyFee == if v <= MaxRoyaltyFee then v else old(royaltyFee)
    {
      if v <= MaxRoyaltyFee {
        royaltyFee := v;
        refused := false;
      } else {
        refused := true;
      }
    }

    /** The guard of the mint handler: an image CID and a name and a
        description, none of them empty. */
    predicate ReadyToMint()
      reads this
    {
      imageCid.Some? && imageCid.value != "" && name != "" && description != ""
    }

    /** The metadata document the form describes. */
    function FormMetadata(): (m: Metadata)
      reads this
      requires ReadyToMint()
    {
      BuildMetadata(name, description, imageCid.value, attributes)
    }

    /**
     * The mint handler. An incomplete form is refused before any call;
     * otherwise the run is the pipeline over the form's metadata, the
     * connected address, the current fee and the mint time of `now`, the
     * clock reading taken once the receipt is in. The form itself is left
     * untouched.
     */
    method HandleMintItem(connected: Address, services: Services, now: nat)
      returns (outcome: MintOutcome, calls: seq<Call>)
      requires Valid() && Renderable(now)
      ensures outcome == Rejected <==> !ReadyToMint()
      ensures !ReadyToMint() ==> calls == []
      ensures ReadyToMint() ==>
        calls == Pipeline(services, connected, royaltyFee, MintTimestamp(now), FormMetadata()).1
      ensures ReadyToMint() ==>
        outcome == Pipeline(services, connected, royaltyFee, MintTimestamp(now), FormMetadata()).0
      // the fee sent to the contract and saved with the record stays within the cap
      ensures forall c | c in calls && c.MintItem? :: c.royaltyFee <= MaxRoyaltyFee
      ensures forall c | c in calls && c.SaveNftToDb? :: c.record.royaltyFeeNumerator <= MaxRoyaltyFee
    {
      if imageCid.None? || imageCid.value == "" || name == "" || description == "" {
        return Rejected, [];
      }
      var metadata := BuildMetadata(name, description, imageCid.value, attributes);
      var mintTime := MintTimestamp(now);
      outcome, calls := RunPipeline(services, connected, royaltyFee, mintTime, metadata);
      PipelineCarriesFee(services, connected, royaltyFee, mintTime, metadata);
    }
  }
}
