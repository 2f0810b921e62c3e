# LL(1) grammar analyser — a Dafny model

This project models the algorithmic core of a small LL(1) grammar analyser, `Proyecto.py`. The analyser reads context-free grammars whose productions are written as words. It then does the following:

- It splits each word into symbols. An upper-case letter is a one-character nonterminal, and every maximal run of other characters is a terminal.
- It computes FIRST sets with a memoised recursion (`compute_first`).
- It computes FOLLOW sets with an unguarded recursion (`compute_follow`).
- It computes FIRST of a symbol string (`compute_first_of_string`).
- It checks the LL(1) condition on per-production lookahead sets (`is_ll1`).
- It fills the predictive parsing table (`construct_parsing_table`).

The model has one module per concern:

- `Symbols` holds symbols, productions and grammars, and the `defaultdict(set)` tables as maps in which a missing key reads as empty.
- `Tokenizer` holds the word tokenizer and the reader state that registers left-hand sides.
- `FirstSets` holds `compute_first`, as a class whose `first` field the recursive methods update.
- `FollowSets` holds `compute_follow`, as a class whose `follow` field the recursive methods update. The methods take a recursion budget.
- `StringFirst` holds `compute_first_of_string`.
- `LL1Check` holds `is_ll1`, together with the corrected check described under Findings.
- `ParsingTable` holds `construct_parsing_table`.

Each imperative routine of the source is a method with the source's loops, `break`s and `for ... else` exits.

- The methods of `FollowSets`, `StringFirst`, `LL1Check`, `ParsingTable` and `Tokenizer` are proved against a function that describes their result without the loop. Further lemmas characterise those functions.
- The methods of `FirstSets` are proved against equations. Each production adds exactly `ProductionFirst`, the FIRST set of the production read through the table. The walk after a nullable head adds exactly `TailFirst`. On a ranked grammar, `ComputeFirst` returns a table that solves the FIRST equations (`Solves`), and those equations have only one solution (`FirstUnique`).
- `Nullable` is the set of nonterminals whose FIRST set can come to hold `e`. `e` enters a set only through a production's head: a lower-case head whose first character is `e` (line 23), or a nonterminal head whose set holds `e` (line 27). The walk of lines 31-37 adds `e` only after such a head. `Nullable` is the least set of nonterminals closed under that head rule, and `ComputeFirst` gives `e` only to its members.
- A grammar is ranked when no nonterminal reads its own FIRST set while it is being expanded. A production reads its head and, after a nullable head, every later symbol up to and including the first that is neither `e` nor nullable (`Reads`). Every nonterminal a production reads must rank below the production's left-hand side. Right recursion, and recursion behind a nonterminal that is not nullable, are allowed.

Three behaviours of the code are modelled as written:

- `is_ll1` builds each lookahead set from the FIRST table entry of every symbol, terminals included (lines 97-99). See Findings.
- `construct_parsing_table` reports no conflicts. A later production that claims a cell overwrites it (line 139).
- `find_follow` walks only after the first occurrence of the symbol in a production (`production.index`, line 58). On `S -> A b A c`, `A -> a`, FOLLOW(A) comes out `{b}`, without the `c` after the second `A` (`RepeatFirstOccurrence`).

## Model

| member | source | states |
|---|---|---|
| Tokenizer.Tokenize | Proyecto.py:181-203 | The symbols of a word are `Tokens(word)`, and the terminals found are exactly its runs. |
| Tokenizer.LexConcat | Proyecto.py:184-201 | Concatenating the symbols gives back the word without its spaces. |
| Tokenizer.LexWellShaped | Proyecto.py:185-201 | Every symbol is a single upper-case letter or a non-empty run with no upper-case letter and no space. |
| Tokenizer.LexSeparated | Proyecto.py:184-201 | In a word without spaces, no two terminal runs are adjacent: the runs are maximal. |
| Tokenizer.ConcatTokens | Proyecto.py:184-201 | Tokenizing the concatenation of a well-shaped, separated symbol list gives back that list. Tokenizing is inverse to concatenation. |
| Tokenizer.TokensConcat | Proyecto.py:184-201 | For a word without spaces, concatenating its tokens gives the word, and the tokens are well shaped and separated. |
| Tokenizer.WordTokensNonEmpty | Proyecto.py:181-203 | A non-empty word without spaces yields a non-empty production. |
| Tokenizer.GrammarReader.ReadWords | Proyecto.py:181-204 | The processed productions are the words' tokens in order. `terminals` grows by exactly their runs. The grammar is untouched. |
| Tokenizer.GrammarReader.AddLine | Proyecto.py:173-205 | The left-hand side is appended to the nonterminal list only if new, which keeps the list duplicate-free and in first-seen order. The productions are appended to its rule list. The grammar stays valid. |
| Tokenizer.AddRuleValid | Proyecto.py:174-176 | Registering a left-hand side and extending its productions keeps the grammar free of duplicates, with keys exactly the nonterminals and no empty production. |
| FirstSets.ComputeFirst | Proyecto.py:6-45 | Every key is a declared nonterminal. `e` is never keyed, and every other declared nonterminal is. Every set holds only what its productions contribute, and every head fact holds. Only a `Nullable` nonterminal has `e` in its set. On a ranked grammar the table solves the FIRST equations: each set equals the union of what its productions contribute. |
| FirstSets.FirstBuilder.FindFirst | Proyecto.py:10-39 | The result is the symbol's FIRST set as the table now holds it. That is `{symbol}` for a non-nonterminal or `e`, and the memoised set for a keyed symbol; in both cases the table is unchanged. Earlier sets stay frozen, and newly keyed sets meet their head facts. Every production of a newly keyed symbol that does not read the symbol itself contributes all of its FIRST set. On a ranked grammar every newly keyed set is complete and ranks below the symbol. |
| FirstSets.FirstBuilder.ExpandProduction | Proyecto.py:19-37 | One production of a keyed nonterminal. The symbol's set becomes exactly its old value plus `ProductionFirst`, the production's FIRST set under the final table. Other sets stay frozen, everything added is justified, and the head fact holds. |
| FirstSets.FirstBuilder.WalkTail | Proyecto.py:31-37 | After a head whose FIRST set holds `e`, the symbol's set becomes exactly its old value plus `TailFirst`. That adds each later symbol's FIRST set without `e`, up to and including the first one that lacks `e`, plus `e` when every set holds `e`. |
| FirstSets.FirstBuilder.WalkStep | Proyecto.py:32-35 | One symbol of the walk, with its two `find_first` calls. That symbol's FIRST set without `e` is now in the set. The walk stops iff that FIRST set lacks `e`. When it stops, the set equals its value at the start of the walk plus `TailFirst`; otherwise the walk invariant holds for the next symbol. |
| FirstSets.NullableClosed | Proyecto.py:22-37 | `Nullable` is closed under the head rule: a nonterminal with a production whose head is a lower-case word starting with `e`, or a nullable nonterminal, is nullable. |
| FirstSets.SolutionEpsilonSound | Proyecto.py:22-37 | On a ranked grammar, every table that solves the FIRST equations gives `e` only to `Nullable` nonterminals. |
| FirstSets.FirstUnique | Proyecto.py:6-45 | On a ranked grammar two tables that solve the FIRST equations are equal. The table `ComputeFirst` returns is therefore the FIRST table. |
| FirstSets.ExpressionGrammarRanked | Proyecto.py:18-37 | The grammar `E -> T X`, `X -> + T X \| e`, `T -> F Y`, `Y -> * F Y \| e`, `F -> ( E ) \| id` is ranked, although `E` is recursive through `F`. |
| FirstSets.ExpressionGrammarFirst | Proyecto.py:18-37 | On that grammar, every table that solves the FIRST equations, `ComputeFirst`'s included, gives `E`, `T` and `F` the set `{(, i}`. The lower-case head `id` contributes only its first character. |
| FirstSets.ExpressionGrammarNullableFirst | Proyecto.py:18-37 | On that grammar every solution gives `X` the set `{+, e}` and `Y` the set `{*, e}`: the `e` productions put `e` in. |
| FirstSets.ListGrammarRanked | Proyecto.py:18-37 | The grammar `L -> S L \| e`, `S -> a` is ranked. `L` recurses behind `S`, which is not nullable, so the walk never reads `L`. |
| FirstSets.ListGrammarFirst | Proyecto.py:18-37 | On that grammar every solution, `ComputeFirst`'s included, gives `S` the set `{a}` and `L` the set `{a, e}`. |
| FirstSets.ContributionsGrow | Proyecto.py:19-37 | What the productions contribute only grows as the table grows. |
| FirstSets.AddKeepsSound | Proyecto.py:22-37 | Adding justified symbols to one set keeps every set justified. |
| FirstSets.TailFirstReaches | Proyecto.py:31-35 | The tail walk passes on the FIRST set, without `e`, of every symbol that follows a nullable prefix. |
| FirstSets.TailFirstExhausted | Proyecto.py:36-37 | The tail walk yields `e` when every symbol is nullable. |
| FirstSets.DoneStable | Proyecto.py:16-17 | A completed set stays complete while the sets it reads stay frozen. This is why memoisation is sound. |
| FollowSets.ComputeFollow | Proyecto.py:48-86 | On success, every FOLLOW set equals the completed set `FollowSpec`, and the start symbol's set holds `$`. `None` only for an empty grammar or when some set cannot be completed within the budget. |
| FollowSets.FollowBuilder.constructor | Proyecto.py:49-51 | The table starts as `{start: {$}}`. |
| FollowSets.FollowBuilder.FindFollow | Proyecto.py:54-80 | The result is `FollowSpec(symbol)`, and the table's FOLLOW(symbol) equals it. The table only grows, and only the sets of symbols whose `find_follow` the call reaches through line 78 change. |
| FollowSets.FollowBuilder.ScanRules | Proyecto.py:56-78 | Scanning the productions of one left-hand side fails exactly when one of them needs an incomplete set. Otherwise FOLLOW(symbol) grows by exactly what they contribute. |
| FollowSets.FollowBuilder.ScanProduction | Proyecto.py:57-78 | The scan fails exactly when `Contribution` is undefined, that is when it needs a FOLLOW set that cannot be completed. On success FOLLOW(symbol) grows by exactly what the production contributes: the walk's symbols, and FOLLOW(lhs) when the walk falls off the end and `lhs` is not the symbol. The table only grows. |
| FollowSets.FollowBuilder.InheritFollow | Proyecto.py:76-78 | The call `find_follow(lhs)` fails exactly when FOLLOW(lhs) cannot be completed. Otherwise FOLLOW(symbol) grows by exactly FOLLOW(lhs): the call itself leaves FOLLOW(symbol) alone. |
| FollowSets.InheritsReturns | Proyecto.py:77-78 | If `find_follow(x)` returns, so does every `find_follow(lhs)` it calls at line 78, with one level less of recursion. |
| FollowSets.NoReentry | Proyecto.py:54-80 | A `find_follow(lhs)` that returns never reaches `find_follow(x)` for an `x` that inherits from `lhs`: that path would call `find_follow(lhs)` again without end. |
| FollowSets.FollowBuilder.WalkAfter | Proyecto.py:61-74 | The `while ... else` walk after the first occurrence adds exactly the trailer's symbols to FOLLOW(symbol), and reports whether it fell off the end. |
| FollowSets.FollowBuilder.WalkSymbol | Proyecto.py:62-72 | One symbol of the walk adds its terminal or its FIRST set without `e`, and stops the walk unless it is a nullable nonterminal. |
| FollowSets.IndexOf | Proyecto.py:58-59 | `production.index` gives the first occurrence. |
| FollowSets.RepeatFirstOccurrence | Proyecto.py:57-59 | On `S -> A b A c`, `A -> a`, the completed FOLLOW(A) is `{b}` under any budget: only the first occurrence of `A` is walked. |
| FollowSets.FollowWalkMembers | Proyecto.py:61-74 | The walk adds `y` iff some symbol reached after a nullable-nonterminal prefix puts `y`. A terminal puts itself; a nonterminal puts its FIRST set without `e`. The walk falls off the end iff every symbol after the occurrence is a nullable nonterminal. |
| FollowSets.FollowSpecHolds | Proyecto.py:50-78 | Lower bound. A completed FOLLOW(x) holds `$` when `x` is the start symbol. It holds what the walk after `x` adds in every production. When that walk falls off the end of a production of another nonterminal `lhs`, it holds all of FOLLOW(lhs). |
| FollowSets.FollowSpecJustified | Proyecto.py:50-78 | Upper bound: everything in a completed FOLLOW(x) is there for one of those reasons. |
| FollowSets.JustifiedInSpec | Proyecto.py:50-78 | Every symbol that one of those reasons allows is in a completed FOLLOW(x). Together with the upper bound this characterises the set. |
| FollowSets.FollowSpecFuel | Proyecto.py:77-78 | Once a FOLLOW set completes, more recursion budget does not change it. |
| FollowSets.FollowSpecUnique | Proyecto.py:77-78 | Two budgets that both complete FOLLOW(x) give the same set. |
| FollowSets.MutualTrailDiverges | Proyecto.py:77-78 | On `S -> A`, `A -> a B`, `B -> b A`, neither FOLLOW(A) nor FOLLOW(B) completes under any budget. The source's recursion does not end on this grammar. |
| StringFirst.ComputeFirstOfString | Proyecto.py:114-128 | The result is `FirstOfString`, the left-to-right walk. |
| StringFirst.FirstOfStringMembers | Proyecto.py:116-127 | `y` is in the result iff a symbol reached after a prefix of nullable non-lower-case symbols contributes `y`, or `y` is `e` and every symbol is passed. A lower-case symbol contributes itself; any other symbol contributes its FIRST set without `e`. |
| StringFirst.EpsilonInFirstOfString | Proyecto.py:118-127 | `e` is in the result iff every symbol is passed over, or the walk reaches a literal `e` symbol. |
| LL1Check.ProductionLookahead | Proyecto.py:96-103 | The lookahead set of a production is `Lookahead`: the table's FIRST sets up to the first one without `e`, with `e` kept, plus FOLLOW(A) when every set holds `e`. |
| LL1Check.LookaheadMembers | Proyecto.py:96-103 | `y` is in the lookahead set iff the FIRST set of a symbol reached after an `e`-holding prefix holds `y`, or every symbol's set holds `e` and FOLLOW(A) holds `y`. |
| LL1Check.RowClash | Proyecto.py:94-109 | Reports a clash iff two productions of one nonterminal have intersecting lookahead sets. |
| LL1Check.IsLL1 | Proyecto.py:89-111 | Returns true iff no nonterminal has two productions with intersecting lookahead sets. |
| LL1Check.IsLL1AcceptsCommonPrefix | Proyecto.py:97-99 | With the FIRST table `compute_first` produces, `is_ll1` accepts `S -> a \| a B`, although both productions claim the table cell (S, a). |
| LL1Check.ClaimClash | Proyecto.py:136-143 | Reports a clash iff two productions of one nonterminal claim a common parsing-table cell. |
| LL1Check.IsLL1Corrected | Proyecto.py:131-144 | Returns true iff no two productions of one nonterminal claim a common parsing-table cell. |
| ParsingTable.WriteCells | Proyecto.py:138-143 | Writing one production's text into a set of cells, in any set order, gives the old row overlaid with those cells. |
| ParsingTable.FillRow | Proyecto.py:134-143 | Writing a nonterminal's productions in order over a row gives the row overlaid with `RowAfter`. |
| ParsingTable.ConstructParsingTable | Proyecto.py:131-144 | A row exists exactly for the declared nonterminals with a claimed cell. Each row is `RowAfter` of the nonterminal's productions. A nonterminal listed twice leaves its row as it was. |
| ParsingTable.RowAfterKeys | Proyecto.py:136-143 | A cell exists iff some production claims it. A production claims FIRST(p) without `e`, plus FOLLOW(A) when `e` is in FIRST(p). |
| ParsingTable.RowAfterValue | Proyecto.py:136-143 | Every cell holds `" ".join(p)` for the last production in declaration order that claims it. Later productions overwrite earlier ones. |
| ParsingTable.RowAfterDeterministic | Proyecto.py:136-143 | When no two productions claim a common cell, every production's text is in every cell it claims. |
| ParsingTable.TableDeterministic | Proyecto.py:131-144 | Under the corrected LL(1) condition, the table holds every production of every nonterminal at every terminal it claims. |
| ParsingTable.CommonPrefixOverwrites | Proyecto.py:138-139 | On `S -> a \| a B`, the second production overwrites the first in cell (S, a). |

## Left out

- Reading input, the batch loop over cases, and printing the sorted FIRST and FOLLOW lines (Proyecto.py:162-224). These are console I/O and formatting.
- `display_parsing_table` (Proyecto.py:147-159). It is presentation through an external table library.
- The commented-out LL(1) driver at the end of `process_grammar_cases` (Proyecto.py:226-238). It is dead code.
- Character classes are ASCII only. `isupper` and `islower` look at `A`-`Z` and `a`-`z`, so Unicode letters are not modelled.
- Key creation by a `defaultdict` read is not modelled; a missing key reads as empty. The FIRST table therefore never gains the empty keys that the lookup at line 30 (and `is_ll1`'s reads at lines 98-99) create for terminals. The sets that are read are unchanged by this.
- `for lhs in grammar` (line 55) walks the grammar's keys in insertion order. The model walks the nonterminal list instead. The reader inserts keys in exactly that order.
- FollowSets.ComputeFollow: the recursion of lines 77-78 has no cycle guard and can run forever. The model takes a recursion budget (`fuel`), and `None` stands for the source's recursion error. The model does not state that a large enough budget always suffices on grammars where the source ends.
- FollowSets.ComputeFollow: an empty nonterminal list makes `non_terminals[0]` raise (line 50). The model answers `None`.
- FirstSets.ComputeFirst: that the table solves the FIRST equations is proved only for ranked grammars. On other grammars `ComputeFirst` ensures only soundness (every set holds only what its productions contribute), the head facts, and that only `Nullable` nonterminals hold `e`. It does not state which sets are complete.
- FirstSets.FirstBuilder.FindFirst: where a nonterminal reads itself through its head or a nullable prefix, the memoised recursion (lines 16-17) can return an incomplete set. On `S -> A | b`, `A -> S | a`, FIRST(A) comes out `{a}` where `{a, b}` is right. The model does not state which sets are complete on such grammars.
- Tokenizer.GrammarReader.AddLine: an empty input line makes `line[0]` raise. The model requires a non-empty line and words without spaces, which is what `split()` produces.
- Python sets are unordered. Where the source iterates a set (lines 138 and 142), the model lets Dafny pick any element. Because the same text is written to every cell, the result does not depend on the order.

## Findings

| source | as written | input that shows it | evidently intended | confidence | as-written member | corrected member |
|---|---|---|---|---|---|---|
| Proyecto.py:97-99 | `is_ll1` builds each lookahead set from `first[symbol]` for every symbol. The FIRST table holds only nonterminals, so a production that begins with a terminal gets an empty lookahead set, and such productions never clash. | `S -> a \| a B`, `B -> b`: `is_ll1` returns true, yet both productions of `S` claim cell (S, a), and `construct_parsing_table` keeps only `a B` there. | Lookahead sets taken from `compute_first_of_string`, as `construct_parsing_table` uses them. The grammar is then LL(1) exactly when no two productions of a nonterminal claim a common table cell, and then every production owns every cell it claims. | not executed | LL1Check.IsLL1AcceptsCommonPrefix | LL1Check.IsLL1Corrected |
