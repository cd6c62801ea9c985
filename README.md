# NFT create page and listing card, modelled in Dafny

This project models the logic under two React components of an NFT
marketplace front end.

- The **create page** holds a mint form: name, description, an optional image
  CID, an ordered list of attribute rows and a royalty fee. The fee is a
  numerator over 10,000, so 250 means 2.5%.
  - Its setters are guarded. An attribute edit touches one field of one row.
    Adding a row appends a blank one. The fee setter refuses values above 1000.
  - Its mint handler runs a fixed pipeline. It validates the form, builds the
    metadata document and uploads it. It calls the contract's `mintItem` and
    reads the transaction receipt. It takes the token id from the fourth topic
    of the first log, which is the indexed `tokenId` of the ERC-721
    `Transfer` event. It computes a mint time shifted by eight hours. When the
    topic is there, it saves a record of the token to the database.
- The **NFT card** keeps three pieces of state: `isListed`, `price` and
  `loading`.
  - An effect copies the on-chain item into them.
  - The list handler checks the price before any contract call. It sends a
    fixed fee of 0.025 ether and raises `loading` around the awaited call.
  - The unlist handler makes one call and ignores its failure.

Every network collaborator is an abstract step that answers a value or fails.
These are the IPFS uploads, the contract writes, the receipt read and the
database write. They are the function-typed fields of `Mint.Services` and
`Listing.CardServices`. The mint handler returns the list of calls it made,
so its contract can say which calls run, in what order and with which
arguments.

Modules, one per file:

- `Wrappers` (wrappers.dfy): `Option` and `Result`.
- `Numerals` (numerals.dfy): `parseInt(s, 16)`, fixed-width and canonical
  decimal numerals, and their inverses.
- `Calendar` (calendar.dfy): seconds since 1970 to a calendar date and back,
  `toISOString`, and the `YYYY-MM-DD HH:MM:SS` layout with its parser.
- `Mint` (mint.dfy): the create page, as the class `CreateNftPage` plus pure
  builders for the metadata, token topic, mint time and database record.
- `Listing` (listing.dfy): the card, as the class `NftCard`.

Behaviour of the code worth knowing:

- The fee setter accepts negative values. Only values above 1000 are refused.
- A mint is reported as a success when the receipt carries no token topic, or
  when there is no public client to read a receipt. No record is saved then.
- A failed database write after a successful mint is reported as a plain
  failure, the same as a failed mint.
- A receipt with no log at all makes `logs[0].topics` throw. The handler's
  catch turns this into a failure.
- The form never checks the fee when minting. Only the setter's cap bounds it.
  The invariant `CreateNftPage.Valid` is kept by every setter, and
  `HandleMintItem` promises under it that the fee sent and saved is at most
  1000.

## Model

| member | source | states |
|---|---|---|
| `Numerals.HexRun` | packages/nextjs/app/create/page.tsx:93 | the run of hex digits that `parseInt` reads: every character in it is a digit and the one after it is not |
| `Numerals.ParseInt16` | packages/nextjs/app/create/page.tsx:93 | `parseInt(s, 16)` gives NaN exactly when, after an optional `0x`/`0X`, no hexadecimal digit comes first; its partner `Mint.TopicWordParses` reads a topic word back as its number |
| `Numerals.HexValueOfDigits` | packages/nextjs/app/create/page.tsx:93 | reading back a fixed-width hexadecimal numeral gives the number it was written from |
| `Numerals.DecimalValueOfDigits` | packages/nextjs/app/create/page.tsx:99 | reading back a zero-padded decimal field of the ISO string gives the number it was written from |
| `Numerals.DecimalString` | packages/nextjs/app/create/_components/NFTCard.tsx:30 | `BigInt.toString()` writes a non-empty string of decimal digits with no leading zero (except for zero) |
| `Numerals.DecimalStringRoundTrip` | packages/nextjs/app/create/_components/NFTCard.tsx:30 | the price string written from the on-chain price reads back as that price |
| `Calendar.YearOf` | packages/nextjs/app/create/page.tsx:99 | a day count splits into a year and a day within that year, and the days of the skipped years plus that day give back the count |
| `Calendar.YearOfBelow` | packages/nextjs/app/create/page.tsx:99 | a day before year 10000 falls in a year before 10000, so the ISO year has four digits |
| `Calendar.MonthOf` | packages/nextjs/app/create/page.tsx:99 | a day of the year falls in exactly the month whose range of days contains it |
| `Calendar.ToDateTime` | packages/nextjs/app/create/page.tsx:99 | the date and time of a second count are valid, and converting them back gives the same second count |
| `Calendar.IsoString` | packages/nextjs/app/create/page.tsx:99 | `toISOString()` writes 24 characters with `-` at 4 and 7, `T` at 10, `:` at 13 and 16, `.` at 19 and `Z` at 23; its partner `Calendar.IsoHeadIsStored` gives the meaning of its first 19 characters |
| `Calendar.ReplaceFirst` | packages/nextjs/app/create/page.tsx:99 | `replace` with a character pattern changes only the first occurrence and keeps the length |
| `Calendar.StoredString` | packages/nextjs/app/create/page.tsx:99 | the stored mint time has 19 characters: `-` at 4 and 7, a space at 10, `:` at 13 and 16, digits elsewhere |
| `Calendar.StoredStringRoundTrip` | packages/nextjs/app/create/page.tsx:99 | the stored layout parses back to the date and time it was written from |
| `Calendar.IsoHeadIsStored` | packages/nextjs/app/create/page.tsx:99 | the first 19 characters of the ISO string, with `T` replaced by a space, are the stored layout of the same date and time |
| `Mint.WithField` | packages/nextjs/app/create/page.tsx:53 | the spread update sets the named field of a row and keeps the other |
| `Mint.BuildMetadata` | packages/nextjs/app/create/page.tsx:69-74 | the metadata keeps name, description and attribute rows verbatim (blank rows and order included), and its image link reads back through the gateway (`Mint.ImageCidOf`, its inverse) as exactly the image CID |
| `Mint.TokenTopic` | packages/nextjs/app/create/page.tsx:92 | `receipt?.logs[0].topics[3]`: absent without a receipt or with fewer than four topics, the fourth topic otherwise, and an error when the receipt has no log |
| `Mint.TopicWordParses` | packages/nextjs/app/create/page.tsx:92-93 | a token id written as a 32-byte topic word parses back as that id |
| `Mint.BuildRecord` | packages/nextjs/app/create/page.tsx:93-110 | the record holds the metadata CID as token_uri, the mint time, the owner, state 0 and the fee; its nft_id is absent (NaN) exactly when the topic, after an optional `0x`, does not start with a hexadecimal digit; its partner `Mint.RecordCarriesTokenId` gives the id for a real topic |
| `Mint.RecordCarriesTokenId` | packages/nextjs/app/create/page.tsx:102-110 | a record built from a `Transfer` topic has nft_id equal to the token id, the metadata CID as token_uri, state 0, the given owner and fee |
| `Mint.ShiftedDateTime` | packages/nextjs/app/create/page.tsx:96-98 | the shifted date and time is a valid calendar date and lies exactly (capture instant + 8 h) seconds after the epoch, to the second |
| `Mint.MintTimestamp` | packages/nextjs/app/create/page.tsx:96-99 | the mint time string is 19 characters in the layout `YYYY-MM-DD HH:MM:SS`: digits, with `-` at 4 and 7, a space at 10 and `:` at 13 and 16 |
| `Mint.MintTimestampIsIsoHead` | packages/nextjs/app/create/page.tsx:99 | the mint time is the shifted instant's `toISOString()` cut to 19 characters with its first `T` replaced by a space |
| `Mint.MintTimestampIsShiftedInstant` | packages/nextjs/app/create/page.tsx:96-99 | the mint time string parses back to the capture instant plus eight hours, to the second |
| `Mint.Pipeline` | packages/nextjs/app/create/page.tsx:77-119 | a run of a complete form is never refused, makes between one and four calls, and its first call uploads the metadata |
| `Mint.PipelineFed` | packages/nextjs/app/create/page.tsx:79-111 | each call is fed by the earlier answers: `mintItem(connected, CID answered by the upload, fee)`, the receipt read of the hash the contract call answered (only with a public client), and a record built from the receipt's non-empty fourth topic, the CID, the mint time, the connected address and the fee |
| `Mint.PipelineStepAt` | packages/nextjs/app/create/page.tsx:79-111 | call i is step i (upload, contract call, receipt read), except that without a public client the record write is the third call |
| `Mint.PipelineOrdered` | packages/nextjs/app/create/page.tsx:79-111 | the calls go upload, contract call, receipt read, database write, in that order and each at most once |
| `Mint.PipelineStopsAtFailure` | packages/nextjs/app/create/page.tsx:77-119 | every call before the last one succeeded, and a run whose last call failed is reported as a failure (the `catch`) |
| `Mint.PipelineMinted` | packages/nextjs/app/create/page.tsx:90-114 | success is reported exactly when every call succeeded, the receipt was read exactly when a public client exists, the receipt had a log, and the record was written exactly when the fourth topic is present and non-empty |
| `Mint.PipelineFailsOnlyOnError` | packages/nextjs/app/create/page.tsx:77-119 | a run is reported as a failure only when its last call failed or the receipt had no log; in particular a run whose calls all succeed without a token topic is reported as a success |
| `Mint.PipelineCarriesFee` | packages/nextjs/app/create/page.tsx:84-110 | the contract call and the saved record carry exactly the fee the run was given |
| `Mint.RunPipeline` | packages/nextjs/app/create/page.tsx:77-119 | the awaited calls, one after another, give exactly the outcome and the calls of `Pipeline` |
| `Mint.CreateNftPage.constructor` | packages/nextjs/app/create/page.tsx:15-19 | the form starts empty with no image, one blank attribute row and a fee of 250, and satisfies the invariant (fee at most 1000, at least one row) |
| `Mint.CreateNftPage.SetName` | packages/nextjs/app/create/page.tsx:143 | the name input replaces the name |
| `Mint.CreateNftPage.SetDescription` | packages/nextjs/app/create/page.tsx:153 | the description input replaces the description |
| `Mint.CreateNftPage.HandleFileChange` | packages/nextjs/app/create/page.tsx:26-49 | only an upload answer with a non-empty hash for a chosen file sets the image CID; otherwise it is unchanged |
| `Mint.CreateNftPage.HandleAttributeChange` | packages/nextjs/app/create/page.tsx:51-55 | the named field of row i gets the value; the other field of that row, every other row and the number of rows are unchanged; the invariant is kept |
| `Mint.CreateNftPage.AddNewAttribute` | packages/nextjs/app/create/page.tsx:58-60 | exactly one blank row is appended after the existing rows, so the list is never empty |
| `Mint.CreateNftPage.HandleRoyaltyFeeChange` | packages/nextjs/app/create/page.tsx:123-130 | a value of at most 1000 (negative ones included) replaces the fee; a larger one is refused and leaves it unchanged; so the fee never exceeds 1000 |
| `Mint.CreateNftPage.HandleMintItem` | packages/nextjs/app/create/page.tsx:63-120 | a form without an image CID, a name or a description is refused with no call; otherwise the outcome and the calls are those of `Pipeline` over the form's metadata, the connected address, the current fee and the mint time of the clock reading; under the form's invariant the fee sent to the contract and saved with the record is at most 1000 |
| `Listing.ListingFeeInEther` | packages/nextjs/app/create/_components/NFTCard.tsx:49 | the wei value sent with a listing is 0.025 ether |
| `Listing.NftCard.constructor` | packages/nextjs/app/create/_components/NFTCard.tsx:11-13 | the card starts unlisted, with an empty price and `loading` false |
| `Listing.NftCard.SetPrice` | packages/nextjs/app/create/_components/NFTCard.tsx:164 | the price input replaces the price |
| `Listing.NftCard.SyncFromChain` | packages/nextjs/app/create/_components/NFTCard.tsx:27-35 | with an on-chain item, `isListed` mirrors it and `price` is its decimal numeral, which reads back as the on-chain price; without one, both reset to `false` and `""` |
| `Listing.NftCard.HandleListNft` | packages/nextjs/app/create/_components/NFTCard.tsx:38-67 | a price that is empty, not a number or not positive is refused with no call and `loading` untouched. Otherwise exactly one `listItem(tokenId, priceWei, 25·10^15)` is made with `loading` raised, and `loading` is lowered afterwards whether the call succeeded or failed |
| `Listing.NftCard.HandleUnlistNft` | packages/nextjs/app/create/_components/NFTCard.tsx:70-80 | exactly one `unlistNft(tokenId)` call; its failure is swallowed and no local state changes |

## Left out

- JSX rendering, the image preview URL, notifications and console logging are
  presentation. The outcome values (`Rejected`, `Failed`, `Minted`,
  `InvalidPrice`, `Listed`, `ListingFailed`) stand for the notifications.
- The internals of `uploadFileToIPFS`, `addToIPFS` and `saveNFTToDB` are not
  part of this model. Nor are the wagmi/viem contract writes and the receipt
  fetch. Each is an abstract step that answers a value or fails.
- Batch minting and gas-cost records do not appear in these two files and are
  not modelled.
- Mint.CreateNftPage.HandleRoyaltyFeeChange: takes the integer that
  `Number(e.target.value)` produced. Fractional values and NaN are not
  modelled. NaN would be refused, because `NaN <= 1000` is false.
- Listing.NftCard.HandleListNft: `Number(price)` and `parseEther(price)` are
  abstract functions (`CardServices.toNumber`, `CardServices.parseEther`).
  Only `parseEther("0.025")` is pinned, as `ListingFeeWei`.
- Numerals.HexRun: `parseInt`'s skipping of leading blanks and its sign are
  not modelled, since topics are never signed or padded. Nor is the loss of
  precision above 2^53: the token id is an unbounded natural.
- Mint.MintTimestamp: `setHours(getHours() + 8)` is modelled as eight hours
  added to an absolute instant, with no time zone or daylight-saving effect.
  Instants before 1970 are excluded because the clock reading is a natural
  number of milliseconds since the epoch; `toISOString` would still write
  years 0000 to 1969 with four digits. Shifted instants in year 10000 or later
  are excluded (`Mint.Renderable`), because `toISOString` writes those years
  in an expanded six-digit form with a sign.
- The clock (`new Date()`) is the `now` parameter of `HandleMintItem`, in
  milliseconds since the epoch.
- `connectedAddress` is taken to be defined, because the mint button is only
  shown to a connected wallet.
- Handlers run to completion one at a time. The interleavings that `await`
  allows are not modelled: a second click while a listing is in flight, or the
  effect firing mid-handler. `HandleListNft`'s ghost result
  `loadingInFlight` records the flag at the awaited call.
- The read hook's polling (`watch: true`) is not modelled. `SyncFromChain` is
  called once per new read.
- The transfer button (NFTCard.tsx:143-152) and its address input are not
  modelled. The button fires the call without awaiting it, and it keeps no
  state of its own.
