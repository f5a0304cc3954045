# Execution PnL aggregation, modelled in Dafny

This project models the core of `BybitExecutionPnlService`, the service that consumes the
exchange's private `execution` websocket stream and keeps realised profit and loss per order
id, per symbol and in total. The model covers:

- the message handler `onWsMessage`. It ignores every frame whose `topic` is not
  `"execution"`. Otherwise it hands the records of `data` to `processExecution` in order.
- the permissive field readers `asText` and `asBig`. A missing field, JSON null, empty text
  and unparseable text all read as absent.
- the pricing rule. A record that is not spot yields `execPnl - execFee`. A spot sell yields
  `execValue - execFee`. A spot buy yields `-execValue - execFee`. Anything else is skipped.
- the merge of a priced record into the per-order map, the per-symbol map and the running total.
- the three getters, which return zero for an unknown non-null key.

Files, one module each:

- `wrappers.dfy` (`Wrappers`): `Option`, standing for Java's nullable references.
- `java_strings.dfy` (`JavaStrings`): `String.equalsIgnoreCase` as Java compares characters.
  A lemma lists exactly which spellings match a word of ASCII letters.
- `json_records.dfy` (`JsonRecords`): decoded frames and records, `asText` and `asBig`.
  `new BigDecimal(String)` is a parameter `DecimalParser = string -> Option<real>`.
- `pricing.dfy` (`Pricing`): `Price`, the pure pricing branch, with one lemma per case.
- `aggregation.dfy` (`Aggregation`): the three accumulators as a value `Totals`, one
  record's effect `Step`, and `Replay` of a history. Lemmas say what the accumulators add up to.
- `service.dfy` (`ExecutionService`): the class `BybitExecutionPnlService`. Its fields are
  `pnlByOrderId`, `pnlBySymbol` and `totalPnl`, updated in place by `ProcessExecution` and
  by `OnWsMessage`, whose `while` loop walks the records.

The class keeps a ghost `history`: the records whose `processExecution` returned normally.
Its invariant `Valid()` says the three fields are exactly what replaying that history from
empty produces. BigDecimal `add`, `subtract` and `negate` without a `MathContext` are exact,
so amounts are Dafny `real`.

A spot `Buy` or `Sell` record without a usable `execValue` dereferences null at line 97 or
100. The exception is caught per message at line 67, so the rest of that message is dropped
and earlier records stay merged. The model has this as `Outcome.Failed` plus `UntilFailure`, and
`FailureAbortsRestOfMessage` exhibits it.

## Model

| member | source | states |
|---|---|---|
| `JsonRecords.NodeText` | src/main/java/nur/kg/pnlanalyticsservice/service/BybitExecutionPnlService.java:57-58 | a JSON null node renders as the text "null", any other node as its text |
| `JsonRecords.AsText` | src/main/java/nur/kg/pnlanalyticsservice/service/BybitExecutionPnlService.java:122-125 | absent exactly when the field is missing or JSON null; otherwise the field's text |
| `JsonRecords.AsBig` | src/main/java/nur/kg/pnlanalyticsservice/service/BybitExecutionPnlService.java:127-135 | absent exactly when the field is missing, JSON null, empty or rejected by the parser; otherwise the parser's value |
| `JavaStrings.WordMatches` | src/main/java/nur/kg/pnlanalyticsservice/service/BybitExecutionPnlService.java:86 | a word of ASCII letters equals a string ignoring case iff the string has the same length and each character is one of that letter's Java spellings |
| `JavaStrings.CharMatchesLetter` | src/main/java/nur/kg/pnlanalyticsservice/service/BybitExecutionPnlService.java:96 | one character matches an ASCII letter ignoring case iff it is one of the letter's spellings (its two cases, plus long s, dotless i, dotted capital I or Kelvin sign) |
| `JavaStrings.EqualsIgnoreCaseReflexive` | src/main/java/nur/kg/pnlanalyticsservice/service/BybitExecutionPnlService.java:86 | every string, so every literal, matches itself ignoring case |
| `JavaStrings.SellAndBuyDisjoint` | src/main/java/nur/kg/pnlanalyticsservice/service/BybitExecutionPnlService.java:96-101 | no side value is both "Sell" and "Buy" ignoring case |
| `JavaStrings.ToUpper` | src/main/java/nur/kg/pnlanalyticsservice/service/BybitExecutionPnlService.java:86 | `Character.toUpperCase` on the characters that matter here: lower-case ASCII letters move up by 32; an upper-case ASCII result comes only from an ASCII letter, long s or dotless i; any changed character becomes an upper-case ASCII letter |
| `JavaStrings.ToLower` | src/main/java/nur/kg/pnlanalyticsservice/service/BybitExecutionPnlService.java:86 | `Character.toLowerCase` likewise: upper-case ASCII letters move down by 32; a lower-case ASCII result comes only from an ASCII letter, dotted capital I or the Kelvin sign; any changed character becomes a lower-case ASCII letter |
| `JavaStrings.CharEqualsIgnoreCase` | src/main/java/nur/kg/pnlanalyticsservice/service/BybitExecutionPnlService.java:86 | the per-character test of `equalsIgnoreCase`; matching characters have the same lower-of-upper form (`CharMatchesLetter` lists the matches of an ASCII letter) |
| `JavaStrings.EqualsIgnoreCase` | src/main/java/nur/kg/pnlanalyticsservice/service/BybitExecutionPnlService.java:86 | `equalsIgnoreCase` on non-null strings: a match has equal length and matches at every position (`WordMatches` gives the exact spellings) |
| `JavaStrings.LiteralEqualsIgnoreCase` | src/main/java/nur/kg/pnlanalyticsservice/service/BybitExecutionPnlService.java:86 | `literal.equalsIgnoreCase(s)`: a null `s` never matches, and a match has the literal's length |
| `Pricing.FeeOf` | src/main/java/nur/kg/pnlanalyticsservice/service/BybitExecutionPnlService.java:81-82 | the fee is the parsed `execFee`, or zero when `asBig` gives none (`UnusableFeeIsZero` spells out when) |
| `Pricing.IsSpot` | src/main/java/nur/kg/pnlanalyticsservice/service/BybitExecutionPnlService.java:86 | `"spot".equalsIgnoreCase(category)`: a spot record has a non-null category of four characters (`SpotSpellings` gives the exact spellings) |
| `Pricing.SpotSpellings` | src/main/java/nur/kg/pnlanalyticsservice/service/BybitExecutionPnlService.java:86 | a record is spot iff its category is text of four characters, each a Java spelling of the corresponding letter of "spot"; a null category is not spot |
| `Pricing.Price` | src/main/java/nur/kg/pnlanalyticsservice/service/BybitExecutionPnlService.java:74-103 | a record that is not spot is priced iff execPnl is present; only a spot record without execValue fails; a priced spot record had execValue (the exact amounts are the `DerivativeNet`, `SpotSellNet` and `SpotBuyNet` lemmas) |
| `Pricing.UnusableFeeIsZero` | src/main/java/nur/kg/pnlanalyticsservice/service/BybitExecutionPnlService.java:81-82 | a fee that is missing, JSON null, empty or unparseable counts as zero; the record prices exactly as if it had no fee field |
| `Pricing.DerivativeWithoutPnlSkipped` | src/main/java/nur/kg/pnlanalyticsservice/service/BybitExecutionPnlService.java:86-89 | a record whose category is null or not "spot" ignoring case, and whose execPnl is absent, is skipped |
| `Pricing.DerivativeNet` | src/main/java/nur/kg/pnlanalyticsservice/service/BybitExecutionPnlService.java:86-91 | a record that is not spot with execPnl present nets exactly execPnl - fee |
| `Pricing.SpotSellNet` | src/main/java/nur/kg/pnlanalyticsservice/service/BybitExecutionPnlService.java:96-97 | a spot sell (any case) nets execValue - fee |
| `Pricing.SpotBuyNet` | src/main/java/nur/kg/pnlanalyticsservice/service/BybitExecutionPnlService.java:99-100 | a spot buy (any case) nets -execValue - fee |
| `Pricing.SpotOtherSideSkipped` | src/main/java/nur/kg/pnlanalyticsservice/service/BybitExecutionPnlService.java:96-102 | a spot record whose side is null or neither Buy nor Sell is skipped |
| `Pricing.SpotWithoutValueFails` | src/main/java/nur/kg/pnlanalyticsservice/service/BybitExecutionPnlService.java:96-100 | a spot buy or sell with no usable execValue fails (the null dereference) |
| `Pricing.FailureOnlyOnSpotTrade` | src/main/java/nur/kg/pnlanalyticsservice/service/BybitExecutionPnlService.java:86-103 | pricing fails iff the record is a spot buy or sell without a usable execValue |
| `Pricing.LinearExample` | src/main/java/nur/kg/pnlanalyticsservice/service/BybitExecutionPnlService.java:86-91 | category "linear", execPnl 10.5, fee 0.2 nets 10.3 |
| `Pricing.SpotSellExample` | src/main/java/nur/kg/pnlanalyticsservice/service/BybitExecutionPnlService.java:96-97 | spot sell of value 100 with fee 0.1 nets 99.9 |
| `Pricing.SpotBuyExample` | src/main/java/nur/kg/pnlanalyticsservice/service/BybitExecutionPnlService.java:81-82 | spot buy of value 100 nets -100.1 with fee 0.1, and -100 with no fee field |
| `Aggregation.Lookup` | src/main/java/nur/kg/pnlanalyticsservice/service/BybitExecutionPnlService.java:137-143 | `getOrDefault(key, ZERO)`: the stored value, or zero for an unknown key |
| `Aggregation.Step` | src/main/java/nur/kg/pnlanalyticsservice/service/BybitExecutionPnlService.java:105-113 | the total grows by the record's contribution (its net PnL if priced, else zero); a skipped or failed record changes nothing (`PricedStep` gives the map entries) |
| `Aggregation.Replay` | src/main/java/nur/kg/pnlanalyticsservice/service/BybitExecutionPnlService.java:25-27 | the accumulators after a history, from the empty state; it carries no contract of its own, and its properties are `ReplaySums` (total and every per-key value are sums over the history), `ReplayKeys` and `ReplaySnoc` |
| `Aggregation.ReplaySnoc` | src/main/java/nur/kg/pnlanalyticsservice/service/BybitExecutionPnlService.java:64-66 | processing one more record is one more Step |
| `Aggregation.ReplayKeys` | src/main/java/nur/kg/pnlanalyticsservice/service/BybitExecutionPnlService.java:105-110 | every per-order or per-symbol key is the order id or symbol of a record of the history: entries appear only through merges |
| `Aggregation.MergeAdd` | src/main/java/nur/kg/pnlanalyticsservice/service/BybitExecutionPnlService.java:105-110 | merging under a non-null key sets that key to its old value (or zero) plus the amount; other keys keep their values; a null key changes nothing |
| `Aggregation.UnpricedStepUnchanged` | src/main/java/nur/kg/pnlanalyticsservice/service/BybitExecutionPnlService.java:89 | a skipped or failed record leaves all three accumulators exactly as they were |
| `Aggregation.PricedStep` | src/main/java/nur/kg/pnlanalyticsservice/service/BybitExecutionPnlService.java:105-113 | a priced record adds its net PnL to the total, and to its order id's and symbol's entries when those are non-null; every other entry is unchanged |
| `Aggregation.StepLookup` | src/main/java/nur/kg/pnlanalyticsservice/service/BybitExecutionPnlService.java:105-113 | after one record, each accumulator reads as before plus that record's contribution to it |
| `Aggregation.ZeroNetKeepsValues` | src/main/java/nur/kg/pnlanalyticsservice/service/BybitExecutionPnlService.java:105-113 | a record priced at zero leaves every value read back unchanged |
| `Aggregation.ReplaySums` | src/main/java/nur/kg/pnlanalyticsservice/service/BybitExecutionPnlService.java:105-113 | after a history, the total is the sum of its net PnL, and each per-order and per-symbol value is the sum over the records carrying that key |
| `Aggregation.SumsAppend` | src/main/java/nur/kg/pnlanalyticsservice/service/BybitExecutionPnlService.java:64-66 | the sums over two batches processed one after the other add up |
| `Aggregation.ReplayAppend` | src/main/java/nur/kg/pnlanalyticsservice/service/BybitExecutionPnlService.java:64-66 | processing a batch after a history adds the batch's sums to the total and to every per-key value |
| `Aggregation.ReplayAppendAll` | src/main/java/nur/kg/pnlanalyticsservice/service/BybitExecutionPnlService.java:64-66 | `ReplayAppend` for every order id and symbol at once |
| `Aggregation.MapSumMergeAdd` | src/main/java/nur/kg/pnlanalyticsservice/service/BybitExecutionPnlService.java:106 | merging an amount under a non-null key raises the sum of a map's values by that amount |
| `Aggregation.FullyKeyedTotalsAgree` | src/main/java/nur/kg/pnlanalyticsservice/service/BybitExecutionPnlService.java:105-113 | if every priced record carried an order id and a symbol, the total equals the sum of per-order values and the sum of per-symbol values |
| `Aggregation.UnkeyedRecordDiverges` | src/main/java/nur/kg/pnlanalyticsservice/service/BybitExecutionPnlService.java:105-113 | a priced record without an order id moves the total and creates no per-order entry |
| `ExecutionService.IsExecutionTopic` | src/main/java/nur/kg/pnlanalyticsservice/service/BybitExecutionPnlService.java:57-60 | a frame is handled iff its topic node is text exactly "execution"; a missing or JSON null topic is not |
| `ExecutionService.UntilFailure` | src/main/java/nur/kg/pnlanalyticsservice/service/BybitExecutionPnlService.java:64-67 | the processed records are the longest prefix of the batch in which no record fails |
| `ExecutionService.UntilFailureAt` | src/main/java/nur/kg/pnlanalyticsservice/service/BybitExecutionPnlService.java:64-67 | the processed prefix ends exactly at the first failing record, or at the end of the batch |
| `ExecutionService.ProcessedRecords` | src/main/java/nur/kg/pnlanalyticsservice/service/BybitExecutionPnlService.java:57-66 | a frame with no execution topic or no data contributes nothing; otherwise a prefix of its records |
| `ExecutionService.OtherTopicIgnored` | src/main/java/nur/kg/pnlanalyticsservice/service/BybitExecutionPnlService.java:57-60 | a missing topic, a JSON null topic or any other topic contributes no records |
| `ExecutionService.FailureAbortsRestOfMessage` | src/main/java/nur/kg/pnlanalyticsservice/service/BybitExecutionPnlService.java:64-69 | a spot buy without execValue stops its message, so a priced record after it is lost |
| `ExecutionService.BybitExecutionPnlService.constructor` | src/main/java/nur/kg/pnlanalyticsservice/service/BybitExecutionPnlService.java:25-31 | the service starts with empty maps, a zero total and an empty history |
| `ExecutionService.BybitExecutionPnlService.ProcessExecution` | src/main/java/nur/kg/pnlanalyticsservice/service/BybitExecutionPnlService.java:72-119 | the new state is one Step of the old; it reports failure exactly when pricing fails; the invariant is kept |
| `ExecutionService.BybitExecutionPnlService.OnWsMessage` | src/main/java/nur/kg/pnlanalyticsservice/service/BybitExecutionPnlService.java:52-70 | the history grows by the frame's processed records; the total and every per-key value grow by their sums; another topic changes nothing |
| `ExecutionService.BybitExecutionPnlService.RealisedPnlForOrder` | src/main/java/nur/kg/pnlanalyticsservice/service/BybitExecutionPnlService.java:137-139 | zero for an unknown order id; in general the net PnL of every processed record carrying that order id |
| `ExecutionService.BybitExecutionPnlService.RealisedPnlForSymbol` | src/main/java/nur/kg/pnlanalyticsservice/service/BybitExecutionPnlService.java:141-143 | zero for an unknown symbol; in general the net PnL of every processed record carrying that symbol |
| `ExecutionService.BybitExecutionPnlService.TotalRealisedPnl` | src/main/java/nur/kg/pnlanalyticsservice/service/BybitExecutionPnlService.java:145-147 | the net PnL of every processed record |

## Left out

- `start()`: building the websocket client, choosing the testnet or mainnet domain and subscribing are network I/O through the exchange SDK.
- JSON decoding by Jackson's `readTree`. A frame is modelled already decoded. A topic-less frame stands for a frame that fails to parse or is not an object; both change nothing.
- A `data` node that is not an array: the model takes the elements Jackson would iterate. A missing `data` is modelled; it dereferences null, the exception is swallowed, and nothing changes.
- A record node that is not an object: it is modelled as a record with no fields, which has no category and no execPnl and so is skipped.
- The grammar of `new BigDecimal(String)`. It is the parameter `DecimalParser`; `None` stands for `NumberFormatException`.
- BigDecimal scale, and `equals` versus `compareTo`: amounts are exact reals, so `0 + x` and `x` are the same value.
- `JavaStrings.ToUpper` and `JavaStrings.ToLower` cover ASCII letters and the four non-ASCII characters whose case maps onto an ASCII letter. Every other character maps to itself. Comparisons therefore agree with Java whenever one side is ASCII, as every literal compared here is. Java counts UTF-16 units where Dafny counts scalar values; this cannot change a match against an ASCII literal.
- ExecutionService.BybitExecutionPnlService.RealisedPnlForOrder: a null order id throws `NullPointerException` in the source, because `ConcurrentHashMap.getOrDefault` rejects a null key; the parameter is a non-null `string`, so that case is not modelled.
- ExecutionService.BybitExecutionPnlService.RealisedPnlForSymbol: a null symbol throws `NullPointerException` in the source for the same reason; not modelled.
- `execQty` is read only for the log line and is not modelled.
- Logging and the `System.out`/`System.err` prints.
- Concurrency: the atomic `ConcurrentHashMap.merge`, `synchronized (this)` and `volatile`. The model is one sequential state, so lost-update freedom under parallel merges is not modelled.
- `AnalyticsController` (an HTTP wrapper over collaborators not part of this model), the Spring application class and the `BybitProperties` configuration record.
