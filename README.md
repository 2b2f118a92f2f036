# nQuantCpp core in Dafny

This project models three parts of the nQuantCpp colour quantizer and proves
properties about them:

- **The PNN (pairwise nearest neighbour) palette builder** of `PnnQuant`. It
  has three phases:
  - it builds a histogram of the image into 65536 bins, compacts the
    non-empty bins to the front and threads them into a doubly linked chain;
  - it keeps a 1-based binary min-heap of bins keyed on their cached merge
    cost, checked lazily through the `tm`/`mtm` stamps and the
    `mtm == USHRT_MAX` tombstone, and merges the cheapest pair until
    `nMaxColors` bins survive;
  - it walks the surviving chain to fill the palette.
- **The two colour-index resolvers**:
  - `nearestColorIndex` is a memoised weighted-distance argmin with
    partial-sum pruning;
  - `closestColorIndex` is a memoised best/second-best ranking that
    alternates by pixel parity.
  - Around them sit the `quantize_image` raster pass and the palette and
    transparency fix-ups of `PnnQuantizer::QuantizeImage`.
- **The two ditherers**:
  - the generalised Hilbert ("Gilbert") curve traversal of
    `GilbertCurve.cpp`, with its nine-entry residual queue and its palette
    lookup memo;
  - the blue-noise raster pass of `BlueNoise.cpp`, over the 4096-entry
    `RAW_BLUE_NOISE` table.

The modules follow the program's structure:

| file | module | contents |
|---|---|---|
| `colors.dfy` | `Colors` | bytes, ARGB colours, `rint`, the float-like order `Key` (a finite value or +infinity, standing for `float err = 1e100`), pixel offsets |
| `pnn_bins.dfy` | `PnnBins` | the `pnnbin` record, the histogram, compaction, `getQuanFn`, the chain |
| `pnn_heap.dfy` | `PnnHeap` | the sift-up push and sift-down of the bin heap |
| `pnn_quant.dfy` | `PnnQuant` | `find_nn` and the loop that seeds the heap |
| `pnn_merge.dfy` | `PnnMerge` | the lazy validation of the heap root and the merge/unlink step |
| `pnn_palette.dfy` | `PnnPalette` | the palette fill |
| `pnn_resolve.dfy` | `PnnResolve` | reference definitions of the two resolvers |
| `pnn_quantizer.dfy` | `PnnQuantizer` | the module globals as fields of class `Quantizer`, the memoised resolvers, `pnnquan`, `quantize_image` and `QuantizeImage` |
| `gilbert_curve.dfy` | `GilbertCurve` | `generate2d`'s coordinate sequence as a function, and the proof that it visits every pixel once |
| `gilbert_dither.dfy` | `GilbertDither` | class `Ditherer`: `ditherPixel` and `generate2d` as methods over the queue, the lookup memo and the output buffer |
| `blue_noise.dfy` | `BlueNoise` | the noise table, its indexing and the raster pass |

Representation choices:

- Channel values, merge costs and weights are `real`s. An `err` that was
  never set to a finite cost is `Inf`.
- `GetARGBIndex`, the count reshaping roots (`pow(., 0.75)`, `_sqrt`,
  `cbrt`), the blue-noise perturbation factor `adj`, and the nine Gilbert
  error weights are parameters. The quantizer takes them as a `Foreign`
  value.
- Every state-changing loop of the source is a `method` with loop
  invariants. Each is proved against a function or predicate that states
  its result.

## Model

| member | source | states |
|---|---|---|
| Colors.ClampByte | nQuantCpp/GilbertCurve.cpp:62-65 | clamping a float channel to 0..255 and truncating gives 0 below the range, 255 above it, and the integer part inside it |
| Colors.ToByte | nQuantCpp/PnnQuantizer.cpp:206 | narrowing an int to BYTE keeps values in 0..255 and otherwise agrees with the value modulo 256 |
| Colors.Rint | nQuantCpp/PnnQuantizer.cpp:205 | `rint` is within 0.5 of its argument, exact on integers and non-negative on non-negative inputs |
| Colors.PixelOfIndex | nQuantCpp/GilbertCurve.cpp:53 | every offset of a width x height buffer is `x + y * width` of exactly one in-range pixel |
| Colors.IndexOfPixel | nQuantCpp/BlueNoise.cpp:191 | the offset `x + y * width` of an in-range pixel divides back into its column and row |
| PnnBins.BuildHistogram | nQuantCpp/PnnQuantizer.cpp:83-95 | the histogram loop leaves exactly the bins of the reference histogram, where each pixel adds itself (replaced by the transparent colour when its alpha is at most the threshold) to its slot |
| PnnBins.HistogramCounts | nQuantCpp/PnnQuantizer.cpp:83-95 | the `cnt` of each bin is the number of pixels whose slot it is |
| PnnBins.HistogramTotal | nQuantCpp/PnnQuantizer.cpp:94 | the counts of all bins sum to the number of pixels |
| PnnBins.HistogramUnlinked | nQuantCpp/PnnQuantizer.cpp:80 | after the histogram every bin still has zero links and stamps and a non-negative count |
| PnnBins.TotalCountUpdate | nQuantCpp/PnnQuantizer.cpp:94 | replacing one bin changes the total count by the difference of the two counts |
| PnnBins.Kept | nQuantCpp/PnnQuantizer.cpp:100-102 | the indices of the non-empty bins are no more than the bins |
| PnnBins.KeptInRange | nQuantCpp/PnnQuantizer.cpp:101 | every kept index names a bin with `cnt > 0` |
| PnnBins.KeptExactly | nQuantCpp/PnnQuantizer.cpp:100-112 | the kept indices are strictly increasing and are exactly the bins with `cnt > 0` |
| PnnBins.CompactedStep | nQuantCpp/PnnQuantizer.cpp:100-112 | one more bin extends the kept indices and the compacted bins by that bin (averaged) when it is non-empty, and by nothing otherwise |
| PnnBins.Compact | nQuantCpp/PnnQuantizer.cpp:98-112 | in-place compaction returns the number of non-empty bins and leaves at the front exactly those bins, averaged and in their original order |
| PnnBins.CompactedUnlinked | nQuantCpp/PnnQuantizer.cpp:111 | compacted bins are unlinked and non-empty |
| PnnBins.CompactedTotal | nQuantCpp/PnnQuantizer.cpp:98-112 | compaction drops only empty bins, so the compacted bins hold the histogram's total count |
| PnnBins.Trunc | nQuantCpp/PnnQuantizer.cpp:206 | `(int)` of a non-negative float is its integer part |
| PnnBins.QuanRt | nQuantCpp/PnnQuantizer.cpp:114-119 | `quan_rt` is 0 exactly when `nMaxColors / maxbins` lies strictly between .003 and .005, and -1 exactly when fewer than 16 colours are requested and the ratio is outside that band |
| PnnBins.QuanFnShape | nQuantCpp/PnnQuantizer.cpp:57-75 | the selected count-reshaping function is the identity when `quan_rt` is 0, and maps counts of at least 1 to counts of at least 1 |
| PnnBins.BuildChain | nQuantCpp/PnnQuantizer.cpp:128-135 | the chain loop leaves the reference chain, with `quanFn` applied to every count |
| PnnBins.ChainedLinked | nQuantCpp/PnnQuantizer.cpp:128-135 | after chain building `fw[j] = j+1` and `bk[j+1] = j`, the last bin's `fw` is 0, no bin is stamped, and the live bins form a well-linked chain headed by bin 0 |
| PnnBins.MergeCostNonNeg | nQuantCpp/PnnQuantizer.cpp:43-47 | with non-negative weights and counts, the merge cost `nerr` of two bins is non-negative |
| PnnBins.MergeCostSame | nQuantCpp/PnnQuantizer.cpp:43-47 | two bins with the same colour means (and the same alpha for a semi-transparent image) cost 0 to merge |
| PnnBins.MergeCostSymmetric | nQuantCpp/PnnQuantizer.cpp:43-47 | the merge cost of a pair does not depend on which bin comes first |
| PnnHeap.SwapKeeps | nQuantCpp/PnnQuantizer.cpp:148 | exchanging two heap slots keeps the entries valid, distinct and the same set |
| PnnHeap.UpStep | nQuantCpp/PnnQuantizer.cpp:144-149 | moving a parent down over a cheaper new entry keeps the heap ordered except at the parent |
| PnnHeap.UpClose | nQuantCpp/PnnQuantizer.cpp:146-147 | stopping where the parent's error is no larger restores the heap property |
| PnnHeap.Grow | nQuantCpp/PnnQuantizer.cpp:144 | growing the heap by a new bin keeps it valid and adds exactly that bin |
| PnnHeap.Push | nQuantCpp/PnnQuantizer.cpp:143-150 | the sift-up push grows the heap by one, adds exactly the new bin and keeps `heap[1..heap[0]]` a min-heap on `err` |
| PnnHeap.DownStep | nQuantCpp/PnnQuantizer.cpp:173-178 | moving the cheaper child up keeps the heap ordered except at the child |
| PnnHeap.DownClose | nQuantCpp/PnnQuantizer.cpp:176-177 | stopping where the moving error is no larger than the cheaper child restores the heap property |
| PnnHeap.CheaperChild | nQuantCpp/PnnQuantizer.cpp:174-175 | the child chosen is one of the two children, and its error is no larger than either child's; the right child wins only when it is strictly cheaper |
| PnnHeap.SiftDown | nQuantCpp/PnnQuantizer.cpp:172-180 | the sift-down keeps the size and the set of bins, and restores the heap property after the root was replaced or rekeyed |
| PnnHeap.RootIsMin | nQuantCpp/PnnQuantizer.cpp:160 | the root of an ordered heap has the least error of all entries |
| PnnHeap.PopRoot | nQuantCpp/PnnQuantizer.cpp:165 | moving the last entry to the root shrinks the heap by one, drops exactly the old root and leaves it ordered below the root |
| PnnHeap.RootRekeyed | nQuantCpp/PnnQuantizer.cpp:168 | recomputing only the root's key leaves the heap ordered below the root |
| PnnHeap.SameKeys | nQuantCpp/PnnQuantizer.cpp:189-194 | changing no key of a heap entry keeps the heap ordered |
| PnnQuant.LiveOrder | nQuantCpp/PnnQuantizer.cpp:42 | the live bins in chain order are live, in range and no more than the bins |
| PnnQuant.LiveOrderExact | nQuantCpp/PnnQuantizer.cpp:42 | the chain order is strictly increasing and holds every live bin |
| PnnQuant.RekeyedKeeps | nQuantCpp/PnnQuantizer.cpp:168-169 | recomputing cached costs and stamps keeps the chain, its order and its total weight |
| PnnQuant.GapOrder | nQuantCpp/PnnQuantizer.cpp:42 | with no live bin after the head the chain has at most one bin |
| PnnQuant.OrderShrinks | nQuantCpp/PnnQuantizer.cpp:199 | tombstoning one live bin shortens the chain by exactly one |
| PnnQuant.TotalMoved | nQuantCpp/PnnQuantizer.cpp:193 | the total weight of the chain changes only by what the two merged bins change |
| PnnQuant.NearestUnique | nQuantCpp/PnnQuantizer.cpp:48-51 | the first least-cost successor is unique, so `find_nn`'s result is determined by the bins |
| PnnQuant.ScanStep | nQuantCpp/PnnQuantizer.cpp:42-52 | one step of the `find_nn` scan extends the stretch of chain for which `err`/`nn` are the first minimum, a tie keeping the earlier bin |
| PnnQuant.FindNN | nQuantCpp/PnnQuantizer.cpp:31-55 | `find_nn` changes only `err` and `nn` of bin idx, setting `nn` to 0 with an infinite cost when idx has no live successor, and otherwise to the first live successor of least merge cost with `err` that cost |
| PnnQuant.NearestMoved | nQuantCpp/PnnQuantizer.cpp:168 | a `find_nn` result stays valid when other bins are only rekeyed |
| PnnQuant.NearestKept | nQuantCpp/PnnQuantizer.cpp:168 | a bin's cached neighbour stays valid when other bins are only rekeyed |
| PnnQuant.SeedKept | nQuantCpp/PnnQuantizer.cpp:140-141 | caching bin i's nearest successor keeps the chain, the earlier caches and the heap order |
| PnnQuant.SeedBin | nQuantCpp/PnnQuantizer.cpp:141-150 | one round of heap seeding caches bin i's nearest successor and pushes it, extending the seeded prefix by one |
| PnnQuant.BuildHeap | nQuantCpp/PnnQuantizer.cpp:137-151 | the seeding loop changes only `err`/`nn`, caches every bin's nearest successor and leaves a heap of exactly the bins 0..maxbins-1 |
| PnnMerge.LastLive | nQuantCpp/PnnQuantizer.cpp:131 | the last live bin before c is live with no live bin between |
| PnnMerge.Predecessor | nQuantCpp/PnnQuantizer.cpp:197 | the `bk` of a live non-head bin is the previous live bin, whose `fw` is that bin |
| PnnMerge.MembersBelow | nQuantCpp/PnnQuantizer.cpp:160 | every heap entry is a bin index in range |
| PnnMerge.RootIsLeast | nQuantCpp/PnnQuantizer.cpp:160 | the heap root has the least cached error of all heap members |
| PnnMerge.HeapOkIntro | nQuantCpp/PnnQuantizer.cpp:155 | an ordered heap holding every live bin satisfies the merge loop's heap invariant |
| PnnMerge.RootInRange | nQuantCpp/PnnQuantizer.cpp:160-162 | while two bins survive the heap is non-empty, and a root with `tm >= mtm` is live with a neighbour in range |
| PnnMerge.AcceptedRoot | nQuantCpp/PnnQuantizer.cpp:161-163 | a root that passes the test `tm >= mtm && bins[nn].mtm <= tm` has a later live bin as its neighbour, its cached cost is the true merge cost of that pair, and no live bin has a smaller cached cost |
| PnnMerge.PopKeeps | nQuantCpp/PnnQuantizer.cpp:164-165 | replacing a tombstoned root by the last entry keeps every live bin in the heap |
| PnnMerge.RecomputeState | nQuantCpp/PnnQuantizer.cpp:166-170 | recomputing and restamping a stale root keeps the merge invariant and leaves one stale bin fewer |
| PnnMerge.RecomputeHeap | nQuantCpp/PnnQuantizer.cpp:168 | rekeying the root leaves the heap ordered below the root and still holding every live bin |
| PnnMerge.DropRoot | nQuantCpp/PnnQuantizer.cpp:164-165 | a tombstoned root is replaced by the last element, the heap shrinks and the merge invariant holds |
| PnnMerge.Refresh | nQuantCpp/PnnQuantizer.cpp:166-180 | a stale root is recomputed, restamped with the merge counter and sifted down, with fewer stale bins and the merge invariant kept |
| PnnMerge.SelectRoot | nQuantCpp/PnnQuantizer.cpp:158-181 | the validation loop ends, changing only cached costs and stamps, and returns a live bin of least cached cost whose cache is exact for a later live neighbour |
| PnnMerge.MergePair | nQuantCpp/PnnQuantizer.cpp:183-199 | one merge joins `nb` into `tb`, unlinks `nb` and tombstones it |
| PnnMerge.LinksKept | nQuantCpp/PnnQuantizer.cpp:189-194 | changing no link and no liveness keeps the chain |
| PnnMerge.UnchainedLinked | nQuantCpp/PnnQuantizer.cpp:196-199 | unlinking and tombstoning a live non-head bin keeps a well-linked chain of the other live bins |
| PnnMerge.MergedShape | nQuantCpp/PnnQuantizer.cpp:183-199 | a merge changes only the two bins' clusters and stamps: `tb.cnt` grows by `nb.cnt`, `tb.mtm` is the new counter and `nb` is tombstoned |
| PnnMerge.MergedCaches | nQuantCpp/PnnQuantizer.cpp:194 | the new stamps make every cache that involved the merged bins fail the freshness test, so the merge invariant holds for the next round |
| PnnMerge.MergedKeeps | nQuantCpp/PnnQuantizer.cpp:183-199 | a merge keeps the merge invariant, shortens the chain by one and keeps its total count |
| PnnMerge.MergeBins | nQuantCpp/PnnQuantizer.cpp:153-200 | the merge loop leaves a well-linked chain of exactly `min(maxbins, nMaxColors)` bins with the same total count, and changes nothing when there are no more bins than colours |
| PnnPalette.Entry | nQuantCpp/PnnQuantizer.cpp:205-206 | a palette entry is opaque without a transparent pixel and has alpha `rint(ac)` otherwise; its red, green and blue are the integer parts of the channel means when those lie in 0..255 |
| PnnPalette.Place | nQuantCpp/PnnQuantizer.cpp:205-210 | one fill step keeps the palette's length |
| PnnPalette.FilledBeyond | nQuantCpp/PnnQuantizer.cpp:204-214 | the fill writes only the first slots, one per visited bin |
| PnnPalette.FilledInOrder | nQuantCpp/PnnQuantizer.cpp:206 | without a fully transparent entry to move, slot j holds the entry of the j-th visited bin |
| PnnPalette.FilledTransparent | nQuantCpp/PnnQuantizer.cpp:207-210 | once a bin with alpha 0 is visited in an image with a transparent pixel, slot 0 holds the transparent colour |
| PnnPalette.ChainWalk | nQuantCpp/PnnQuantizer.cpp:212-213 | the walk along `fw` from bin 0 visits the live bins in order and stops at the last one, the only one whose `fw` is 0 |
| PnnPalette.WalkStep | nQuantCpp/PnnQuantizer.cpp:212 | the `fw` of a live bin is the next live bin |
| PnnPalette.WalkLast | nQuantCpp/PnnQuantizer.cpp:212-213 | the `fw` of the last live bin is 0 |
| PnnPalette.PlaceEntry | nQuantCpp/PnnQuantizer.cpp:205-210 | writing one entry, and swapping it with slot 0 when it is fully transparent, is one step of the reference fill |
| PnnPalette.FillPalette | nQuantCpp/PnnQuantizer.cpp:202-214 | the fill loop writes the palette of the reference fill over the surviving chain and returns the index of the last entry |
| PnnResolve.Diff2 | nQuantCpp/PnnQuantizer.cpp:235 | a squared channel difference is non-negative |
| PnnResolve.SurvivesIff | nQuantCpp/PnnQuantizer.cpp:235-250 | with non-negative weights an entry passes all four pruning tests exactly when its full distance is at most `mindist` |
| PnnResolve.Scan | nQuantCpp/PnnQuantizer.cpp:231-253 | the scan's index is one of the scanned entries, or 0 |
| PnnResolve.NearestIndex | nQuantCpp/PnnQuantizer.cpp:226-229 | the nearest index is in the palette, and 0 for a colour whose alpha is at most the threshold |
| PnnResolve.LastArgminUnique | nQuantCpp/PnnQuantizer.cpp:236-252 | the last entry of least distance is unique |
| PnnResolve.ScanMeaning | nQuantCpp/PnnQuantizer.cpp:231-253 | the pruned scan keeps `mindist` at most `INT_MAX`; it returns 0 when every entry is farther away, and otherwise the last entry of least distance with `mindist` its distance |
| PnnResolve.NearestIsArgmin | nQuantCpp/PnnQuantizer.cpp:220-256 | for a colour above the alpha threshold, `nearestColorIndex` is the last entry of least weighted distance, or 0 when every entry is farther than `INT_MAX` |
| PnnResolve.ClosestErrorNonNeg | nQuantCpp/PnnQuantizer.cpp:273-275 | with non-negative weights the closest-colour error is non-negative |
| PnnResolve.ToUShort | nQuantCpp/PnnQuantizer.cpp:281 | storing an error into `unsigned short` gives a value in 0..65535, its integer part when it is in range |
| PnnResolve.Ranked | nQuantCpp/PnnQuantizer.cpp:269-287 | the best and second indices are scanned entries or 0, and both errors lie in 0..USHRT_MAX |
| PnnResolve.RankedMeaning | nQuantCpp/PnnQuantizer.cpp:269-287 | `closest[2] <= closest[3]`; no entry has an error below `closest[2]`, and no entry other than `closest[0]` one below `closest[3]`; a stored error below `USHRT_MAX` is the truncated error of its (distinct) entry |
| PnnResolve.Pick | nQuantCpp/PnnQuantizer.cpp:298-302 | the chosen slot of `closest` is 0 or 1 |
| PnnResolve.PickAlternates | nQuantCpp/PnnQuantizer.cpp:298-302 | unless the best entry is much closer, consecutive positions choose different slots |
| PnnResolve.ClosestIndex | nQuantCpp/PnnQuantizer.cpp:258-307 | the closest index is in the palette, and 0 for a colour whose alpha is at most the threshold |
| PnnResolve.ClosestChoice | nQuantCpp/PnnQuantizer.cpp:297-306 | `closestColorIndex` returns the best or second-best entry when its error is below `Count`, and otherwise falls back to `nearestColorIndex`; it returns the best when `closest[3]*.67 < closest[3]-closest[2]` |
| PnnQuantizer.WeightOf | nQuantCpp/PnnQuantizer.cpp:117 | `weight` is `nMaxColors / maxbins`, and infinite exactly when there are no bins |
| PnnQuantizer.Retune | nQuantCpp/PnnQuantizer.cpp:120-124 | retuning keeps PR, PA and `PG + PB`; it changes something only when `weight < .025` and `PG < 1`, and then lowers PG by less than 0.15 |
| PnnQuantizer.RetuneNonNeg | nQuantCpp/PnnQuantizer.cpp:120-124 | retuning keeps the weights non-negative when PG is at least 0.15 |
| PnnQuantizer.MeanChannel | nQuantCpp/PnnQuantizer.cpp:188-192 | the merged channel `rint(n1*x1 + n2*x2) / (n1+n2)` is the weighted mean up to half a unit of the summed channel |
| PnnQuantizer.AbsorbedMean | nQuantCpp/PnnQuantizer.cpp:186-193 | the merged cluster has the summed count and, in each channel, the weighted mean of the two clusters up to rounding |
| PnnQuantizer.AllLive | nQuantCpp/PnnQuantizer.cpp:128-135 | when no bin is tombstoned, the chain holds every bin |
| PnnQuantizer.SeededStarts | nQuantCpp/PnnQuantizer.cpp:153-155 | the seeded heap and unstamped bins satisfy the merge invariant at counter 0 with every bin on the chain |
| PnnQuantizer.Chosen | nQuantCpp/PnnQuantizer.cpp:319 | the resolver `quantize_image` picks returns an index in the palette |
| PnnQuantizer.ResolverOf | nQuantCpp/PnnQuantizer.cpp:319 | the resolver handed to the blue-noise pass returns an index in the palette for every colour |
| PnnQuantizer.RasterIndices | nQuantCpp/PnnQuantizer.cpp:320-324 | the first raster pass gives one palette index per pixel |
| PnnQuantizer.UnpackArgb | nQuantCpp/PnnQuantizer.cpp:371 | the packed ARGB value of a colour unpacks to that colour |
| PnnQuantizer.HighColor | nQuantCpp/PnnQuantizer.cpp:367-372 | for more than 256 colours each pixel becomes the packed ARGB value of its palette entry with semi-transparency, and otherwise that entry's slot |
| PnnQuantizer.PrunedScan | nQuantCpp/PnnQuantizer.cpp:231-253 | the pruned scan loop returns the index of the reference scan |
| PnnQuantizer.Rank | nQuantCpp/PnnQuantizer.cpp:269-287 | the ranking loop returns the reference best/second-best ranking |
| PnnQuantizer.HistogramPhase | nQuantCpp/PnnQuantizer.cpp:80-112 | the histogram and compaction phases leave the compacted reference histogram at the front of a fresh 65536-bin array, every bin unlinked |
| PnnQuantizer.MergePhase | nQuantCpp/PnnQuantizer.cpp:128-200 | after chaining, seeding the heap and merging, the chain is well linked, holds exactly `min(maxbins, nMaxColors)` bins and the total count of the chained bins; with no more bins than colours the bins are the chained bins, only their cached neighbours changed |
| PnnQuantizer.MergeAndFill | nQuantCpp/PnnQuantizer.cpp:128-214 | the phases after the histogram leave the bins that `MergedFrom` describes for the chained compacted bins, and the palette of the reference fill along the surviving chain |
| PnnQuantizer.MergedFromPrefix | nQuantCpp/PnnQuantizer.cpp:98-135 | merging the front m bins of the array is merging the compacted bins: the merge facts carry over to the chained compacted bins |
| PnnQuantizer.ChainedTotal | nQuantCpp/PnnQuantizer.cpp:128-135 | chaining unlinked bins without reshaping keeps every bin live and keeps their total count |
| PnnQuantizer.MergedTotal | nQuantCpp/PnnQuantizer.cpp:80-200 | without count reshaping (`quan_rt == 0`) the surviving bins' counts sum to the number of pixels |
| PnnQuantizer.UnmergedPalette | nQuantCpp/PnnQuantizer.cpp:202-214 | with no more bins than colours the fill visits bins 0..maxbins-1 in order and, with no alpha-0 entry to move, slot j holds the entry of the j-th starting bin |
| PnnQuantizer.KeptSingle | nQuantCpp/PnnQuantizer.cpp:100-112 | when one bin alone is non-empty, compaction keeps exactly that bin |
| PnnQuantizer.OnePixelHistogram | nQuantCpp/PnnQuantizer.cpp:83-112 | a one-pixel image has one non-empty bin, the pixel's slot, which compacts to the pixel's colour |
| PnnQuantizer.OnePixelStart | nQuantCpp/PnnQuantizer.cpp:83-135 | a one-pixel image starts the merges from a single bin whose means are the pixel's channels |
| PnnQuantizer.OnePixelPalette | nQuantCpp/PnnQuantizer.cpp:76-218 | for a one-pixel image the one entry `pnnquan` writes is the pixel's colour (the transparent colour when its alpha is at most the threshold), made opaque without a transparent pixel, and the transparent colour itself when its alpha is 0 |
| PnnQuantizer.BuiltByPhases | nQuantCpp/PnnQuantizer.cpp:202-217 | the merge and fill facts make up `PnnBuilt`, and `Count` is 1 without bins and otherwise `min(maxbins, nMaxColors)` |
| PnnQuantizer.BlueNoisePass | nQuantCpp/PnnQuantizer.cpp:380-381 | the blue-noise pass keeps every index in the palette |
| PnnQuantizer.FixTransparent | nQuantCpp/PnnQuantizer.cpp:383-389 | for more than 2 colours the transparent pixel's entry becomes the transparent colour; for at most 2 the first two entries are swapped exactly when that entry differs from it, so a [transparent, black] palette stays one of its two orders |
| PnnQuantizer.GilbertPass | nQuantCpp/PnnQuantizer.cpp:361-366 | the Gilbert pass gives a fresh buffer of one palette index per pixel |
| PnnQuantizer.Quantizer.constructor | nQuantCpp/PnnQuantizer.cpp:16-23 | the globals start with their declared initial values and empty memos |
| PnnQuantizer.Quantizer.NearestColorIndex | nQuantCpp/PnnQuantizer.cpp:220-256 | `nearestColorIndex` returns the reference nearest index; a cached answer is returned unchanged, a colour at or below the alpha threshold gives 0 uncached, and otherwise the answer is cached, so the memo is always consistent |
| PnnQuantizer.Quantizer.RankedFor | nQuantCpp/PnnQuantizer.cpp:266-295 | the ranking comes from the memo when it is there and is computed and cached otherwise, with `closest[1] = closest[0]` when no second best exists |
| PnnQuantizer.Quantizer.ClosestColorIndex | nQuantCpp/PnnQuantizer.cpp:258-307 | `closestColorIndex` returns the reference closest index, caches the ranking only for colours above the alpha threshold, and touches the nearest memo only through the fallback |
| PnnQuantizer.Quantizer.Resolve | nQuantCpp/PnnQuantizer.cpp:319 | the chosen resolver returns the reference index and keeps the memos consistent |
| PnnQuantizer.Quantizer.ResolveRow | nQuantCpp/PnnQuantizer.cpp:322-323 | one row of the first raster pass writes the reference index, at position `i + j`, into each cell of that row and no other |
| PnnQuantizer.Quantizer.ResolveRaster | nQuantCpp/PnnQuantizer.cpp:319-324 | the first raster pass writes the reference index of every pixel |
| PnnQuantizer.Quantizer.QuantizeRaster | nQuantCpp/PnnQuantizer.cpp:314-328 | without dithering, `quantize_image` resolves every pixel and then leaves the blue-noise pass's output over those indices, every index in the palette |
| PnnQuantizer.Quantizer.PnnQuan | nQuantCpp/PnnQuantizer.cpp:76-218 | `pnnquan` sets `weight` and retunes the weights; its bins are what the merges leave of the image's compacted histogram, chained with reshaped counts (`min(maxbins, nMaxColors)` live bins, the same total count, and the starting bins themselves when nothing is merged); the palette is the reference fill along their chain, and `Count` is 1 without bins and otherwise `min(maxbins, nMaxColors)` |
| PnnQuantizer.Quantizer.MakePalette | nQuantCpp/PnnQuantizer.cpp:338-359 | the palette has `nMaxColors + 1` slots; the weights are reset by colour count and image size; for at most 2 colours the palette is [transparent, black] or [black, white], and otherwise it is the palette `pnnquan` fills from its merged bins (`PnnBuilt`) |
| PnnQuantizer.Quantizer.RemapPixels | nQuantCpp/PnnQuantizer.cpp:361-393 | the remapping clears both memos; for more than 256 colours every pixel becomes the packed ARGB value (with semi-transparency) or the slot of one of the first `Count` entries; otherwise every pixel gets an index below `Count`, the palette is unchanged without a transparent pixel, and otherwise the transparent pixel's entry becomes the transparent colour (more than 2 colours) or the first two entries are exchanged when that entry is not already it |
| PnnQuantizer.Quantizer.QuantizeImage | nQuantCpp/PnnQuantizer.cpp:330-394 | `QuantizeImage` records the image's transparency facts and builds the palette: [transparent, black] or [black, white] for at most 2 colours, otherwise the `pnnquan` palette of the image (`PnnBuilt`); the result is that palette remapped as `Remapped` states, every pixel an index below `Count` (or an ARGB value or slot of one of its entries) and the transparent entry fixed up |
| GilbertCurve.Sign | nQuantCpp/GilbertCurve.cpp:45-49 | `sign(x)` is -1, 0 or 1 exactly when x is negative, zero or positive |
| GilbertCurve.Half | nQuantCpp/GilbertCurve.cpp:121-124 | C's `x / 2` halves the magnitude and keeps the sign |
| GilbertCurve.Line | nQuantCpp/GilbertCurve.cpp:103-119 | a base-case line of n steps has n pixels |
| GilbertCurve.EvenHalfAxis | nQuantCpp/GilbertCurve.cpp:121-127 | the evened half of an axis is a proper, non-empty part of it on the same axis |
| GilbertCurve.SplitTwo | nQuantCpp/GilbertCurve.cpp:129-137 | both halves of the 2-way split are well-formed, smaller frames |
| GilbertCurve.SplitThree | nQuantCpp/GilbertCurve.cpp:139-146 | the three parts of the 3-way split are well-formed, smaller frames |
| GilbertCurve.EvenHalfEven | nQuantCpp/GilbertCurve.cpp:126-134 | when the major axis is longer than 2 the first half of the 2-way split is even, and the halves `ax2` and `ax-ax2` sum to the axis |
| GilbertCurve.BaseLines | nQuantCpp/GilbertCurve.cpp:103-119 | a frame of height 1 is walked as one row along the major axis, and one of width 1 as one column along the minor axis |
| GilbertCurve.BaseCases | nQuantCpp/GilbertCurve.cpp:103-119 | in both base cases the k-th emitted pixel is k steps from the corner |
| GilbertCurve.CurveLength | nQuantCpp/GilbertCurve.cpp:95-147 | `generate2d` emits exactly w * h pixels |
| GilbertCurve.CurvePlaced | nQuantCpp/GilbertCurve.cpp:95-147 | `generate2d` visits its frame's pixels in the order of the reference curve of a w x h grid, placed at its corner along its axes |
| GilbertCurve.TwoSplitAt | nQuantCpp/GilbertCurve.cpp:129-137 | the path of a 2-way split frame is the paths of its two halves |
| GilbertCurve.ThreeSplitAt | nQuantCpp/GilbertCurve.cpp:139-146 | the path of a 3-way split frame is the paths of its three parts |
| GilbertCurve.LocalMember | nQuantCpp/GilbertCurve.cpp:95-147 | the reference curve of a w x h grid visits exactly the cells of that grid |
| GilbertCurve.LocalDistinct | nQuantCpp/GilbertCurve.cpp:95-147 | the reference curve visits no cell twice |
| GilbertCurve.LocalLength | nQuantCpp/GilbertCurve.cpp:95-147 | the reference curve has one cell per grid pixel |
| GilbertCurve.WideExact | nQuantCpp/GilbertCurve.cpp:181-182 | for a landscape image the traversal is the reference curve itself |
| GilbertCurve.TallExact | nQuantCpp/GilbertCurve.cpp:183-184 | for a portrait image the traversal is the transposed reference curve |
| GilbertCurve.ImageCurveExact | nQuantCpp/GilbertCurve.cpp:181-184 | the traversal `dither` starts visits every pixel of the image exactly once (width * height visits, no repeats) and nothing outside it |
| GilbertDither.Correct | nQuantCpp/GilbertCurve.cpp:55-60 | the correction loop computes the pixel plus the nine queued residuals times their weights |
| GilbertDither.ShrinkBox | nQuantCpp/GilbertCurve.cpp:85-90 | the shrink loop divides by 3 exactly the channels of magnitude 9 or more |
| GilbertDither.CorrectedNoError | nQuantCpp/GilbertCurve.cpp:55-60 | empty residuals leave the pixel unchanged |
| GilbertDither.FirstPixelUnchanged | nQuantCpp/GilbertCurve.cpp:55-67 | while the queue holds only empty boxes, as after setup, a pixel reaches the lookup unchanged by correction and clamping |
| GilbertDither.ResidualBound | nQuantCpp/GilbertCurve.cpp:78-91 | a queued residual channel is the clamped channel minus the palette channel; its magnitude is at most 255, and at most 85 for more than 16 colours, and channels below 9 are kept as they are |
| GilbertDither.Ditherer.constructor | nQuantCpp/GilbertCurve.cpp:149-174 | setup stores the image, palette and functions, zero-fills the 65536-entry lookup and leaves `errorq` holding exactly nine empty boxes |
| GilbertDither.Ditherer.Resolve | nQuantCpp/GilbertCurve.cpp:68-75 | for fewer than 64 colours an empty lookup slot is filled with `ditherFn(c1)+1`, a filled slot is never rewritten and the index is that entry minus 1; otherwise the index is `ditherFn(c1)` and the lookup is untouched |
| GilbertDither.Ditherer.DitherPixel | nQuantCpp/GilbertCurve.cpp:51-93 | `ditherPixel` writes only its own output cell, with the memoised index of the corrected, clamped pixel, drops the oldest residual and appends the new one, so `errorq` keeps nine boxes in FIFO order |
| GilbertDither.Ditherer.Walk | nQuantCpp/GilbertCurve.cpp:103-119 | the base-case loop dithers the pixels of its line in order |
| GilbertDither.Ditherer.SplitTwoWays | nQuantCpp/GilbertCurve.cpp:129-137 | the 2-way branch dithers the pixels of its frame in curve order |
| GilbertDither.Ditherer.SplitThreeWays | nQuantCpp/GilbertCurve.cpp:139-146 | the 3-way branch dithers the pixels of its frame in curve order |
| GilbertDither.Ditherer.RunThree | nQuantCpp/GilbertCurve.cpp:143-145 | the three recursive calls dither their frames one after the other |
| GilbertDither.Ditherer.Generate2d | nQuantCpp/GilbertCurve.cpp:95-147 | `generate2d` hands exactly the pixels of its frame's curve to `ditherPixel`, in order, and never clears a filled lookup slot |
| GilbertDither.Ditherer.Dither | nQuantCpp/GilbertCurve.cpp:181-184 | the traversal visits the image's pixels along the curve, each exactly once, and leaves a palette index in every output cell |
| BlueNoise.NoiseIndexBits | nQuantCpp/BlueNoise.cpp:198 | `(x & 63) \| (y & 63) << 6` is the offset of (x mod 64, y mod 64) in the 64 x 64 tile, below 4096 |
| BlueNoise.ScrambledIndexBits | nQuantCpp/BlueNoise.cpp:199 | `(x*19 & 63) \| (y*23 & 63) << 6` is the tile offset at the scrambled coordinates, below 4096 |
| BlueNoise.UIntMul | nQuantCpp/BlueNoise.cpp:199 | a 32-bit unsigned product is below 2^32 and the true product when that fits |
| BlueNoise.NoiseIndex | nQuantCpp/BlueNoise.cpp:198 | the noise index is within the 4096-entry table |
| BlueNoise.ScrambledIndex | nQuantCpp/BlueNoise.cpp:199 | the scrambled index is within the 4096-entry table |
| BlueNoise.NoiseTiles | nQuantCpp/BlueNoise.cpp:198-199 | both indices repeat every 64 pixels along each axis |
| BlueNoise.MulWrapMod | nQuantCpp/BlueNoise.cpp:199 | the 32-bit wrap of a product keeps its low six bits |
| BlueNoise.PerturbChannel | nQuantCpp/BlueNoise.cpp:201-204 | a perturbed and clamped channel is unchanged when it equals the palette channel or `adj` is 0, and for non-negative `adj` moves away from the palette channel |
| BlueNoise.Perturb | nQuantCpp/BlueNoise.cpp:201-206 | a pixel that equals its palette colour is resolved again unchanged |
| BlueNoise.Perturbed | nQuantCpp/BlueNoise.cpp:191-206 | the pass resolves one colour per pixel, and a pixel already equal to its palette entry as it is |
| BlueNoise.FirstWithSlot | nQuantCpp/BlueNoise.cpp:207-211 | the first colour with a given lookup slot, or -1 exactly when there is none |
| BlueNoise.Output | nQuantCpp/BlueNoise.cpp:207-214 | if `ditherFn` always returns an index below `Count`, so does every output cell |
| BlueNoise.FirstWithSlotStable | nQuantCpp/BlueNoise.cpp:209-210 | a slot's first colour stays first as the pass goes on |
| BlueNoise.SameSlotSameIndex | nQuantCpp/BlueNoise.cpp:207-211 | under the memo, pixels whose colours share a slot get the same index |
| BlueNoise.MemoTransparent | nQuantCpp/BlueNoise.cpp:207-214 | when `ditherFn` gives one index per slot the memo changes nothing |
| BlueNoise.MemoTable | nQuantCpp/BlueNoise.cpp:185-186 | the lookup memo has 65536 entries |
| BlueNoise.MemoTableFirst | nQuantCpp/BlueNoise.cpp:209-210 | a filled slot holds the index of the first colour with that slot plus 1, and an empty slot has seen no colour; nothing is filled for 64 or more colours |
| BlueNoise.MemoStep | nQuantCpp/BlueNoise.cpp:207-214 | the index written for a pixel is the memo entry minus 1 for fewer than 64 colours and `ditherFn` of its colour otherwise |
| BlueNoise.Step | nQuantCpp/BlueNoise.cpp:191-214 | one pixel's step writes its own output cell with the reference index, advances the memo by one colour, and changes no other cell |
| BlueNoise.Row | nQuantCpp/BlueNoise.cpp:190-215 | one row of the pass writes the reference indices of that row and leaves the later cells as they came in |
| BlueNoise.Raster | nQuantCpp/BlueNoise.cpp:189-216 | the two loops leave the reference output in every cell |
| BlueNoise.DitherWith | nQuantCpp/BlueNoise.cpp:183-217 | the pass over a given table resolves, in raster order, every pixel perturbed away from the palette colour of its incoming index, each cell read once and written once, every index staying below `Count` |
| BlueNoise.Dither | nQuantCpp/BlueNoise.cpp:183-217 | `BlueNoise::dither` over `RAW_BLUE_NOISE` leaves the reference output, every index below `Count` |

## Left out

- Floating point: `float`/`double` arithmetic is exact `real` arithmetic.
  Rounding, overflow to infinity and NaN are not modelled. The one infinite
  value, the `1e100` initial cost of `find_nn`, is `Inf`.
- `pow(., .75)`, `_sqrt` and `cbrt` in `getQuanFn` have no bodies here. They
  are parameters, assumed to map counts of at least 1 to values of at least
  1, which is what keeps every count positive for the merge-cost division.
- The Gilbert weight series (`weightRatio`, the `pow` loop and the
  normalisation, nQuantCpp/GilbertCurve.cpp:168-179) is a parameter of nine
  reals. The guarantees of the traversal do not depend on its values.
- `adj`, the blue-noise perturbation factor (nQuantCpp/BlueNoise.cpp:198-200),
  is a parameter, a function of the pixel's coordinates and the two noise
  entries.
- `GetARGBIndex`, `GrabPixels`, `ProcessImagePixels`, `dither_image` and the
  GDI+ `Bitmap`/`Color` types are not part of this model:
  - `GetARGBIndex` is a parameter into 0..65535;
  - a colour is four bytes;
  - `QuantizeImage`'s inputs (pixels, transparency facts) are arguments, and
    its output is the `Quantized` value handed to `ProcessImagePixels`.
- `quantize_image` with `dither == true` calls the foreign `dither_image`.
  Only its non-dithering branch is modelled, as
  `PnnQuantizer.Quantizer.QuantizeRaster`. `PnnQuantizer::QuantizeImage`
  itself never calls `quantize_image`; it calls the two ditherers directly.
- The `DitherFn` types do not match. `GilbertCurve.cpp` and `BlueNoise.cpp`
  call `ditherFn(palette, Count, argb)`, while the resolvers in
  `PnnQuantizer.cpp` take `(palette, argb, pos)`. The ditherers therefore
  take any resolver into the palette, and `QuantizeImage` hands them the
  memoised resolver as a pure function at a fixed `pos`. What the resolvers
  cache while the ditherers run is not modelled; both memos are cleared at
  the end of `QuantizeImage` anyway.
- nQuantCpp/PnnQuantizer.cpp:364 passes an eighth argument (`1.8f` or `1.5f`)
  that the seven-parameter `GilbertCurve::dither` of `GilbertCurve.cpp` does
  not take. Both branches of line 363 are modelled as the same call.
- PnnQuantizer.Quantizer.QuantizeRaster: it takes the noise table as a
  parameter and states the blue-noise result over it. The table the source
  uses, `RAW_BLUE_NOISE`, is what `BlueNoise.Dither` passes.
- PnnQuantizer.BlueNoisePass: it states only that every index stays in the
  palette. `BlueNoise.Dither`, which it calls, states the full output.
- PnnQuantizer.GilbertPass: it states only that the output is a fresh buffer
  of palette indices. `GilbertDither.Ditherer.Dither` states the traversal
  and the per-pixel effect.
- PnnMerge.SelectRoot: the pair merged is the bin of least cached cost and
  its cached neighbour, as in the source's lazy heap. A cache that passes the
  stamp test can be out of date: a merge elsewhere can bring a bin closer to
  one whose neighbour did not change. So the model does not promise that the
  globally cheapest pair is merged, and neither does the source.
- PnnQuantizer.Quantizer.RemapPixels: for more than 256 colours each value is
  stated to be that of one of the first `Count` entries, not of a particular
  one, because `PnnQuantizer.GilbertPass` states only the range of the
  indices it leaves. PnnQuantizer.Quantizer.QuantizeImage inherits this.
- PnnQuantizer.Quantizer.PnnQuan: the palette entries are stated through the
  reference fill over the merged bins. Their colours are derived in closed
  form only when no merge is needed (`PnnQuantizer.UnmergedPalette`) and for
  a one-pixel image (`PnnQuantizer.OnePixelPalette`). After merges, the
  means are the merged means of `PnnQuantizer.AbsorbedMean`, which the
  model does not trace back to the pixels.
- The merge cost of a pair with a zero combined count (a division by zero
  in the source) is defined as 0, and merging such a pair leaves the first
  cluster. Neither arises: every count on the chain is at least 1.
- PnnResolve.ToUShort: storing a negative error, or one of 65536 or more,
  into `unsigned short` is undefined in C++. The model truncates it and
  reduces it modulo 65536, and the contracts speak only of in-range errors.
- `nMaxColors == 0` is not modelled: `QuantizeImage` requires at least one
  colour.
- An image with no pixels is not modelled. `generate2d` on a 0 x 0 frame
  recurses forever. A frame with one side 0 and the other positive ends
  without visiting a pixel: the splits reach a side of 1, and the loop over
  the side of 0 runs no times. The Gilbert pass and `QuantizeImage` require
  width and height of at least 1, which excludes both cases.
- `alphaThreshold` is set by the foreign `GrabPixels`. The model keeps the
  field's current value through `QuantizeImage`.
- The globals persist across calls, as fields of `PnnQuantizer.Quantizer`.
  In the source, PG therefore drifts over repeated `QuantizeImage` calls.
  The model has the same drift in the `w` field and proves no bound on it
  beyond one call.
- `weight` is read at nQuantCpp/PnnQuantizer.cpp:363 for at most 2 colours,
  where `pnnquan` did not run and it keeps its previous value. The model
  keeps the field unchanged in that case.
- PnnQuantizer.Quantizer.RemapPixels: the transparent entry is guaranteed
  only for at most 2 requested colours or more than 2 final colours. When
  `pnnquan` shrinks `Count` to 2 or fewer, the source's `nMaxColors > 2`
  test uses the shrunken count and swaps entries instead of writing the
  colour, and the model states no more than that.
