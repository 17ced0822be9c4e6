# ACE_eval in Dafny

ACE_eval scores poker hands of up to seven cards.

1. Cards are added one at a time to a small accumulator of five machine words.
2. An evaluator reads the best hand off that accumulator with a fixed sequence of bit operations.
3. The result is a 32-bit score with three parts:
   - the category (high card .. straight flush) in bits 28-31;
   - the value ranks in bits 13-25;
   - the kicker ranks in bits 0-12.

There is one 64-bit evaluator (`64bit/eval.c`) and three 32-bit ones. The 32-bit evaluators run the same decision table on a different word layout:

- `ace_eval_decompress.c` returns from each branch;
- `ace_eval_base.c` has one exit after a shared kicker trim;
- `ace_eval_mini.c` is the golfed form of `ace_eval_base.c`.

Python helpers in `ace_utils.py` turn cards into strings and back, remove cards from a deck and list the 169 distinct starting hands.

This project models all of these and proves every evaluator equal to one declarative decision table. For `ace_eval_base.c` this holds for the code with the one correction listed under Findings (the pairs line tests `i`, not `temp`); the line as written is modelled beside it.

- **Hands** (`Cards`, `RankSets`, `HandValues`, `Played`).
  - A hand is a set of card indices `13 * suit + rank`.
  - `HandValues.Classify` is the decision table. It gives the category, the value ranks and the kicker ranks, in the order the evaluators test them.
  - Its kicker counts follow the code: each branch drops a fixed number of the lowest ranks.
  - `Played` proves what those trims mean for seven-card hands: how many ranks each category keeps, and that the kickers are always the highest ranks left over.
  - `HandValues.Pack` lays a classified hand out in the score word. `Played.PackFields` reads the three fields back.
- **Words** (`Words64`, `Words32`, `Dense`, `Bits32`).
  - Each of `Words64`, `Words32` and `Dense` has a representation predicate `Rep(x, S)`: word `x` holds exactly the rank positions of set `S`.
  - Each bit operation the evaluators use (`x & (x - 1)`, a shift, an exclusive or) is a small lemma about `Rep`.
- **The 64-bit evaluator** (`Eval64`, `Evaluate64`, `Hands64`).
  - `makecard` and `compress` are functions.
  - `addcard` is a method on a five-word `array<bv64>`. The `Accumulates` invariant ties the five words to the hand.
  - `evaluate` is split into methods at the source's branch points, and each proves `r == Pack(Classify(h))`.
  - `Hands64.EvalHand` is the test driver's `eval_hand`: five zero words, `addcard(h, makecard(c))` for each card, then `evaluate`. It is proved to return the score of the set of its cards.
- **The 32-bit evaluators**.
  - Shared parts: `Eval32` (the `A` macro and its invariant), `Ace32` (the count word), `Compress32` (every `compress`), `Hand32` and `Tail32` (what each branch computes), `Loops32` and `Steps32`.
  - One module per file: `Decompress`, `Base` and `Mini`.
  - The count word `h0 + h1 + h2 + h4 - (h3 & -16)` holds, for every rank, the number of its cards minus one in a two-bit field. This holds even when four aces wrap the 32-bit sum; `Eval32.Accumulates` carries it card by card.
  - Each `E` is proved to return `Pack(Classify(h))`.
- **The Python helpers** (`AceUtils`).
  - They are modelled on a `Value` datatype that stands for Python values.
  - Python's errors are a `Result`.
  - `FULL_DECK` is a parameter `deck`.

The 32-bit card word is not defined in any file of the repository; its header is not part of this model. The layout used here is read off the masks of `E`: rank r at bit `6 + 2r`, and the suit in bits 0-3, where suit s is bit `1 << s`. `A` then puts suits 0, 1, 2 and 3 in slots 1, 2, 4 and 0.

## Model

| member | source | states |
|---|---|---|
| Eval64.MakeCard | 64bit/eval.c:33 | the card word of index i: rank bit 8 + 4(i % 13) or'd with suit bit 1 << (i / 13) |
| Eval64.MakeCardWord | 64bit/eval.c:33 | makecard(i) is the word of the card of suit i / 13 and rank i % 13: one rank position above its suit nibble |
| Eval64.MakeCardInjective | 64bit/eval.c:33 | the 52 card words are pairwise distinct |
| Eval64.MakeCardExamples | 64bit/accuracy_test.c:61-64 | the words of the deuce and ace of suit 0, the five of suit 1 and the queen of suit 3 (index 49) are 0x101, 0x0100000000000001, 0x100002 and 0x0001000000000008 |
| Eval64.MakeCardSlot | 64bit/eval.c:33-36 | card & 7 of makecard(i) picks slot 1, 2, 4 or 0 for suits 0 .. 3 |
| Eval64.AddCard | 64bit/eval.c:35-38 | slot card & 7 gains (card & -16) + 1, slot 3 gains the card's bits, the other slots are unchanged |
| Eval64.AddWordAccumulates | 64bit/eval.c:35-38 | adding a new card to an accumulator of hand h gives the accumulator of h plus that card: suit nibbles count the suit's cards, rank nibbles of the slot sum count the rank's cards |
| Eval64.EmptyAccumulates | 64bit/eval.c:35-38 | five zero words are the accumulator of the empty hand |
| Eval64.AccumulatesUnique | 64bit/eval.c:35-38 | one set of words stands for a hand, whatever order the cards were added in |
| Eval64.CompressWord | 64bit/eval.c:65-71 | compress of a rank word is the 13-bit mask of its ranks |
| Eval64.CompressRep | 64bit/eval.c:65-71 | compress drops the low nibble and the ace copy and keeps every rank |
| Eval64.KeepTopRep | 64bit/eval.c:81-83 | repeated clearing of the lowest bit leaves the highest rank, whatever suit bits lie below |
| Eval64.ClearLowRep | 64bit/eval.c:144-145 | n rounds of kicker &= kicker - 1 drop the n lowest positions |
| Hands64.EvalHand | 64bit/accuracy_test.c:11-16 | for distinct card indices, at most seven, the words built by addcard(makecard(c)) score Pack(Classify) of the set of those cards |
| Hands64.NewHand | 64bit/accuracy_test.c:13 | five zero words hold the empty hand |
| Hands64.AddIndex | 64bit/accuracy_test.c:21 | addcard(h, makecard(c)) for a card not yet held turns the accumulator of h into that of h plus c |
| Hands64.AddWords | 64bit/eval.c:35-38 | the array after addcard of a card word is the accumulator of the hand with that card |
| Evaluate64.KeepHighest | 64bit/eval.c:82-83 | the loop ends with the highest set bit of its input |
| Evaluate64.Planes | 64bit/eval.c:89-93 | set and pair are the planes of the ranks held exactly three and exactly two times |
| Evaluate64.QuadsWord | 64bit/eval.c:76-79 | count & 0x0444444444444400 holds exactly the ranks held four times |
| Evaluate64.TripsWord | 64bit/eval.c:89-90 | the set plane holds exactly the ranks held three times |
| Evaluate64.PairsWord | 64bit/eval.c:89-93 | the pair plane holds exactly the ranks held twice |
| Evaluate64.QuadsResult | 64bit/eval.c:79-84 | four of a kind scores category 7, the quad rank and the highest other rank |
| Evaluate64.TwoTripsResult | 64bit/eval.c:98-100 | two trips score a full house of the higher trip over the lower |
| Evaluate64.TripsPairsResult | 64bit/eval.c:105-109 | a trip and pairs score a full house of the trip over the higher pair |
| Evaluate64.FlushScan | 64bit/eval.c:113-121 | the scan visits slots 1, 2, 4, 0 and stops at the first suit with five cards, leaving its slot and card count |
| Evaluate64.StraightWords | 64bit/eval.c:125-134 | after the ace copy and four shifted ands, value holds the tops of five-card runs |
| Evaluate64.StraightResult | 64bit/eval.c:136-139 | a straight scores category 4, or 9 on a flush, with its highest top and no kicker |
| Evaluate64.DropToFive | 64bit/eval.c:143-146 | the loop clears the n - 5 lowest ranks of the flush suit |
| Evaluate64.FlushResult | 64bit/eval.c:143-147 | a flush scores category 5 with its five highest ranks |
| Evaluate64.TripsResult | 64bit/eval.c:151-155 | three of a kind scores Pack(Classify(h)): its rank, and the other ranks less the two lowest (Played.SevenTrips: two kickers for seven cards) |
| Evaluate64.ThreePairsResult | 64bit/eval.c:161-166 | three pairs score Pack(Classify(h)): the two higher pairs, and the other ranks less the lowest (Played.SevenTwoPair: one kicker for seven cards) |
| Evaluate64.PairsResult | 64bit/eval.c:161-172 | one or two pairs score Pack(Classify(h)) with category 1 + (temp > 0): the pairs, and the other ranks less the two lowest (Played.SevenOnePair, Played.SevenTwoPair) |
| Evaluate64.HighCardResult | 64bit/eval.c:178-181 | high card scores Pack(Classify(h)): the ranks less the two lowest (Played.SevenHighCard: five for seven cards) |
| Evaluate64.Evaluate | 64bit/eval.c:74-85 | evaluate returns Pack(Classify(h)) for the accumulator of any hand of up to seven cards |
| Evaluate64.FullHouse | 64bit/eval.c:88-110 | below four of a kind, evaluate returns Pack(Classify(h)) |
| Evaluate64.FlushOrStraight | 64bit/eval.c:112-140 | below a full house, evaluate returns Pack(Classify(h)) |
| Evaluate64.FlushOrPairs | 64bit/eval.c:141-148 | below a straight, evaluate returns Pack(Classify(h)) |
| Evaluate64.PairsOrHighCard | 64bit/eval.c:150-181 | without a flush or straight, evaluate returns Pack(Classify(h)) |
| HandValues.FlushSuitUnique | 64bit/eval.c:113-121 | a hand of at most seven cards has at most one suit with five or more cards, so the order of the flush scan does not matter |
| Played.HandCounts | 64bit/eval.c:76 | a hand's size is its number of ranks plus one per pair, two per trip and three per quad |
| Played.SevenQuads | 64bit/eval.c:79-84 | four of a kind among seven cards keeps one quad rank and one kicker |
| Played.SevenFullHouse | 64bit/eval.c:98-110 | a full house among seven cards is one rank over one rank |
| Played.FlushFive | 64bit/eval.c:143-147 | a flush keeps exactly five ranks of its suit, each above every rank of the suit it drops, and no kicker |
| Played.SevenTrips | 64bit/eval.c:151-155 | three of a kind among seven cards keeps two kickers |
| Played.SevenTwoPair | 64bit/eval.c:161-172 | two pair among seven cards, from two pairs or from three, keeps two pairs and one kicker |
| Played.SevenOnePair | 64bit/eval.c:168-172 | one pair among seven cards keeps three kickers |
| Played.SevenHighCard | 64bit/eval.c:178-181 | high card among seven cards keeps the five highest ranks |
| Played.KickersHighest | 64bit/eval.c:150-181 | for any hand size, every kicker is above every rank that is neither value nor kicker |
| Played.PackFields | 64bit/eval.c:181 | the packed score reads back: category in bits 28 and up, value mask in bits 13-25, kicker mask in bits 0-12 |
| Eval32.AddCard | ace_eval_decompress.c:89 | A: slot card & 7 gains the card word, slot 3 gains its bits, the other slots are unchanged |
| Eval32.EmptyAccumulates | ace_eval_decompress.c:89 | five zero words hold the empty hand, and their count word has empty planes |
| Eval32.AddWordAccumulates | ace_eval_decompress.c:89 | after A adds a new card, the slots hold the new hand's suit ranks and counters, and the count word keeps count - 1 per rank |
| Ace32.QuadsPlanes | ace_eval_decompress.c:100-102 | with each field holding count - 1, the ranks in both the even and the odd plane are exactly those held four times |
| Ace32.TripsPlanes | ace_eval_decompress.c:100-102 | the ranks in the odd plane and not the even one are exactly those held three times |
| Ace32.PairsPlanes | ace_eval_decompress.c:100-102 | the ranks in the even plane and not the odd one are exactly those held twice |
| Ace32.CountOld | ace_eval_decompress.c:116 | a card of a rank already held adds its whole word to the count word, and the planes become those of the new hand, four aces wrapping included |
| Ace32.CountNew | ace_eval_decompress.c:116 | a card of a new rank adds only its suit bit to the count word, and the planes become those of the new hand |
| Hand32.QuadTest | ace_eval_decompress.c:130 | evens & odds / 2 is non-zero exactly when some rank is held four times |
| Tail32.FlushTest | ace_eval_decompress.c:172-175 | a suit's counter (slot >> s) & 7 is above four exactly when the suit has five cards or more |
| Tail32.KeepHighest | ace_eval_decompress.c:132-133 | the quads kicker loop ends with the highest set bit of its input |
| Tail32.DropToFive | ace_eval_decompress.c:223-225 | the flush trim clears the n - 5 lowest ranks of a suit of n cards |
| Tail32.StraightWords | ace_eval_decompress.c:198-208 | after the ace copy to bit 4 and four value &= value * 4, value holds the tops of five-card runs |
| Compress32.Compress2Mask | ace_eval_decompress.c:53-59 | DECOMPRESS2 maps bit 6 + 2r of a rank word to bit r of the result |
| Compress32.Compress1Rep | ace_eval_decompress.c:30-50 | DECOMPRESS1 maps bit 6 + 2r of a rank word to bit r of the result |
| Compress32.CompressAgree | ace_eval_decompress.c:30-59 | the two compress branches agree on rank words, and both give the 13-bit mask |
| Compress32.CompressSpare | ace_eval_decompress.c:53-59 | on bit 5, which no rank word sets, the two branches differ |
| Compress32.GatherLoop | ace_eval_base.c:31-34 | the loop copies bit 2i of its input to bit i of out, until the input is zero |
| Compress32.Compress | ace_eval_base.c:28-36 | the loop compress returns the gathered bits divided by eight |
| Compress32.GatherMask | ace_eval_base.c:28-36 | on a rank word the loop compress is the 13-bit mask of its ranks |
| Compress32.GatherAgree | ace_eval_base.c:28-36 | the loop compress equals DECOMPRESS2 on the even bits of any word |
| Decompress.Evaluate | ace_eval_decompress.c:95-274 | E returns Pack(Classify(h)) for the words A built from any hand of up to seven cards |
| Decompress.FullHouseOrAbove | ace_eval_decompress.c:116-156 | the planes of the count word; a quad or full house returns Pack(Classify(h)), otherwise the three tests failed |
| Decompress.FourOfAKind | ace_eval_decompress.c:130-135 | four of a kind returns Pack(Classify(h)) |
| Decompress.TwoTrips | ace_eval_decompress.c:144-148 | two trips return a full house of the higher over the lower, as Pack(Classify(h)) |
| Decompress.TripAndPairs | ace_eval_decompress.c:150-156 | a trip and pairs return a full house over the highest pair, as Pack(Classify(h)) |
| Decompress.FlushScan | ace_eval_decompress.c:172-175 | the four counter tests find the flush suit and its slot, or leave kicker = h[3] when there is none |
| Decompress.FlushOrStraight | ace_eval_decompress.c:162-213 | below a full house, E returns Pack(Classify(h)) |
| Decompress.FlushOrPairs | ace_eval_decompress.c:222-257 | below a straight, E returns Pack(Classify(h)) |
| Decompress.PairsOrHighCard | ace_eval_decompress.c:244-273 | without trips, flush or straight, E returns Pack(Classify(h)) |
| Base.Evaluate | ace_eval_base.c:52-213 | E, with line 191 testing i as the Findings row corrects it, returns Pack(Classify(h)) for the words A built from any hand of up to seven cards |
| Base.PackedScores | ace_eval_base.c:210-212 | words that score the hand give, packed with the loop compress, Pack(Classify(h)) |
| Base.Finish | ace_eval_base.c:210-212 | the result is result << 28, compress(value) << 13 and compress(kicker) |
| Base.FullHouseOrAbove | ace_eval_base.c:73-111 | a quad or full house leaves words that pack to Pack(Classify(h)), otherwise the three tests failed |
| Base.FourOfAKind | ace_eval_base.c:87-92 | result 7, the quad rank and the highest other rank |
| Base.TwoTrips | ace_eval_base.c:101-105 | result 6, the higher trip over the lower |
| Base.TripAndPairs | ace_eval_base.c:106-111 | result 6, the trip over the highest pair |
| Base.FlushLoop | ace_eval_base.c:127-136 | the loop over slots (1 << i) & 7 stops at the first suit with five cards, or leaves kicker = h[3] when there is none |
| Base.SuitCounter | ace_eval_base.c:128-131 | (h[idx] >> i) & 7 is suit i's counter; it is five or more exactly when the suit is a flush |
| Base.StraightRounds | ace_eval_base.c:154-156 | the looped value &= value * 4 leaves the tops of five-card runs, the same words as the unrolled rounds |
| Base.StraightOrBelow | ace_eval_base.c:146-161 | after kicker &= -64, the straight test and the branches below it pack, after the trim, to Pack(Classify(h)) |
| Base.FlushOrBelow | ace_eval_base.c:117-205 | the big else branch and the shared trim pack to Pack(Classify(h)) |
| Base.FlushOrPairs | ace_eval_base.c:170-193 | the flush trim, trips, pairs and high card pack, after the trim, to Pack(Classify(h)) |
| Base.PairsOrHighCard | ace_eval_base.c:180-193 | trips, pairs and high card pack, after the trim, to Pack(Classify(h)) |
| Base.PairRanks | ace_eval_base.c:188-193 | the pairs line with the test on i: result 1 + (odds > 0), the top two pairs when there are three, else all pairs |
| Base.TrimKicker | ace_eval_base.c:202-204 | kicker loses value's ranks, then its two lowest, or only one when i is non-zero |
| Base.TrimSelf | ace_eval_base.c:202-204 | for straights and flushes (kicker == value) the trimmed kicker is 0 |
| Base.PairsAsWritten | ace_eval_base.c:189-192 | the pairs line as written: with one pair and a non-zero temp the value word is empty |
| Base.OnePairLost | ace_eval_base.c:191 | with one pair and a non-zero temp, the line as written packs a result other than the hand's value |
| Base.PairsCategoryKept | ace_eval_base.c:191-192 | the category word of the pairs line as written is the hand's category for every temp; only the value word depends on temp |
| Mini.Evaluate | ace_eval_mini.c:41-152 | E returns Pack(Classify(h)) for the words A built from any hand of up to seven cards |
| Mini.Planes | ace_eval_mini.c:62 | o = 2 * e & a is 0xAAAAAA80 & a, and e &= a is 0x55555540 & a |
| Mini.Finish | ace_eval_mini.c:145-152 | c(v); v = C / 8; c(k); the result is t << 28, v << 13 and C / 8, as the loop compress packs it |
| Mini.FullHouseOrAbove | ace_eval_mini.c:69-79 | a quad sets t = 7, two trips or a trip and pairs set t = 6, each packing to Pack(Classify(h)); otherwise the tests failed |
| Mini.FlushLoop | ace_eval_mini.c:96 | L(4) stops at the first suit whose counter is above four, with t = 5 and k its slot |
| Mini.StraightOrBelow | ace_eval_mini.c:107-113 | the straight test adds 4 to t, and the branches below pack, after the trim, to Pack(Classify(h)) |
| Mini.FlushOrBelow | ace_eval_mini.c:85-141 | the big else branch and the shared trim pack to Pack(Classify(h)) |
| Mini.FlushOrPairs | ace_eval_mini.c:121-132 | the flush trim, trips, pairs and high card pack, after the trim, to Pack(Classify(h)) |
| Mini.FlushTrim | ace_eval_mini.c:121 | while ((v = k) && C-- > 5) ends with v == k, the suit's ranks less the n - 5 lowest |
| Mini.TrimRound | ace_eval_mini.c:121 | one k &= k - 1 clears one more of the lowest ranks |
| Mini.FlushRanksLast | ace_eval_mini.c:121 | the flush suit's ranks never run out during the trim, so the test on v only copies k |
| AceUtils.CardStringsNamed | ace_utils.py:9-12 | CARD_STRINGS[i] is the rank letter of i % 13 then the suit letter of i / 13 |
| AceUtils.NamesDistinct | ace_utils.py:9-12 | the 52 card names are distinct |
| AceUtils.CardDict | ace_utils.py:14 | CARD_DICT maps CARD_STRINGS[i] to i |
| AceUtils.CardDictKeys | ace_utils.py:14 | a string is a key of CARD_DICT iff it is a card name, and maps to its index |
| AceUtils.IndexOf | ace_utils.py:59 | list.index: the first position holding c, or ValueError |
| AceUtils.At | ace_utils.py:63 | Python indexing, negative indices counted from the end, IndexError out of range |
| AceUtils.CardToString | ace_utils.py:58-59 | the name of the card's position in the deck, ValueError for a card not in it, IndexError past 52 |
| AceUtils.StringToCard | ace_utils.py:62-63 | the deck entry at CARD_DICT[s], KeyError for other keys, TypeError for unhashable values |
| AceUtils.CardRoundTrip | ace_utils.py:58-63 | on a deck of 52 distinct cards, the name of deck[i] is CARD_STRINGS[i] and that name maps back to deck[i] |
| AceUtils.NameRoundTrip | ace_utils.py:58-63 | every card name maps to a card whose name is that string |
| AceUtils.CardsToString | ace_utils.py:66-80 | ints become names, tuples and lists keep their shape, other values give None |
| AceUtils.Chunks | ace_utils.py:94-95 | a string is cut into len // 2 two-letter chunks in order |
| AceUtils.Flatten | ace_utils.py:98 | the entries of the tuples of a list in order; TypeError for a non-iterable entry |
| AceUtils.CardList | ace_utils.py:94-104 | the card list for a string, tuple or list input; IndexError for an empty list; TypeError otherwise |
| AceUtils.BoardCards | ace_utils.py:112-113 | a board tuple of every entry's card, or the error of the first entry that fails |
| AceUtils.PairCards | ace_utils.py:106-111 | floor(n / 2) hand tuples of consecutive entries, or the first error among the paired entries |
| AceUtils.StringToCards | ace_utils.py:83-113 | string_to_cards for boards and for hands, with its errors |
| AceUtils.RemoveFirst | ace_utils.py:54 | list.remove drops one occurrence, or fails with ValueError |
| AceUtils.RemoveAll | ace_utils.py:51-54 | removal succeeds iff the cards are a sub-multiset of the deck; the result is the multiset difference, shorter by the number of cards |
| AceUtils.RemoveFromDeck | ace_utils.py:44-55 | remove_from_deck returns RemoveAll of the deck and the cards of all the hands, in order |
| AceUtils.SuitedRows | ace_utils.py:127-129 | the first double loop makes 13 * 12 / 2 index pairs |
| AceUtils.OtherRows | ace_utils.py:131-133 | the second double loop makes 13 * 14 / 2 index pairs |
| AceUtils.StartingMember | ace_utils.py:126-133 | the index pairs are exactly a < b < 13, or a < 13 and a + 13 <= b < 26 |
| AceUtils.StartingCount | ace_utils.py:119 | 78 + 91 = 169 index pairs, all distinct |
| AceUtils.Lookup | ace_utils.py:129 | the deck entries of the index pairs, or IndexError when one is out of range |
| AceUtils.StartingLookup | ace_utils.py:116-135 | for any offset that keeps indices in range, 169 hands |
| AceUtils.UniqueStartingHands | ace_utils.py:116-135 | the loops build the hands of StartingPairs at the offset, in order |

## Left out

- Base.Evaluate: models `E` of `ace_eval_base.c` with line 191 testing `i` (see Findings). As written, the line reads the uninitialised `temp`; `Base.PairsCategoryKept` shows the category word is still right for every `temp`, and `Base.OnePairLost` shows the value word is lost for a one-pair hand when `temp` is non-zero.
- Eval64.AddCard and Eval32.AddCard: the requires admits only words whose low three bits are 1, 2, 4 or 0, which every card word has (`CardWordSlot`, `MakeCardSlot`). The C macros take any word; a word with low bits 3 or past 4 is not modelled.
- The C globals (`i` in `64bit/eval.c`; `C`, `i` and `X` in the 32-bit files) are locals. Each use is a separate variable that holds the value the global has at that point.
- The debug `printf` inside `E` of `ace_eval_mini.c` (line 140), and the printf output and comparison of the test programs, are I/O.
- The table-driven `compress` of `ace_eval_decompress.c` is disabled by the preprocessor.
- `ace_eval_5.c` does not compile.
- `ace_decode.c` is a stdin/stdout decoder.
- The header that defines the 32-bit `Card` type and its card constructor is not part of this model. The card layout is inferred from the masks of `E`.
- The expected scores of `64bit/accuracy_test.c` (lines 66-103) are not restated as lemmas about concrete hands. `Hands64.EvalHand` proves the driver's result equal to the decision table for every hand of up to seven distinct cards.
- Kicker exactness for hands of five or six cards: the code always trims a fixed number of ranks. The `Played` lemmas state kicker counts for seven cards only; `Played.KickersHighest` holds for every size.
- deal_hands, matchup_from_string and the Cython bindings (hand_rank, matchup, sim_matchup) use random numbers and compiled code that is not part of this model.
- rank_dict is a display table of category names.
- `FULL_DECK` is the output of init_deck, which is not part of this model; the helpers take the deck as a parameter.
- Python values are modelled as ints, strings, tuples, lists and None. bool as a subtype of int and other iterables are not modelled.

## Findings

| source | as written | input that shows it | evidently intended | confidence | as-written member | corrected member |
|---|---|---|---|---|---|---|
| ace_eval_base.c:191 | `value=(temp)?odds:evens;` tests `temp`, which nothing on the pairs path has set | a one-pair hand such as A♠ A♥ K♦ Q♣ 9♠ 5♥ 2♦ reaching the line with a non-zero left-over `temp`: the value field is empty and the pair is lost | test `i`, the three-pairs flag set on the line before, as `ace_eval_mini.c:132` does | not executed | Base.OnePairLost | Base.PairRanks |
