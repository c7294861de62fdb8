# Synthetic product records and connection retry

A Dafny model of the data generator of `scripts/generate_data.py`. This
script seeds a PostgreSQL `products` table with synthetic e-commerce products.
The model covers two parts of it:

- `generate_product_data` (module `ProductData`). It reseeds Python's
  `random` generator with seed 91. It then loops `num_records` times. Each
  pass draws a category and a brand, builds a nested metadata dictionary, adds
  the category's own keys, sometimes adds a sale price, and appends the tuple
  `(name, category, brand, metadata)`.
- The connection retry at the top of `seed_database` (module `ConnectRetry`).
  It makes up to five connection attempts, sleeping two seconds after each
  retryable failure but the last. It re-raises the error when the fifth
  attempt fails.

How the model is built:

- The random generator is the class `Rand.Random`. It has a constant
  `generator`, which maps a seed to a fixed stream of raw values, and a
  `cursor` that counts the draws taken since the last `seed`.
- Each primitive draw takes one raw value. `_randbelow(n)` is behind `choice`
  and `randint`. `random()` is behind `uniform`. `sample(xs, 2)` takes two
  draws, by the pool method.
- Every library call has a pure counterpart (`ChoiceAt`, `SampleAt`, ...).
  Its contract is the library's promise, and it holds for every stream.
- Every property below is proved for all streams, so no property depends on
  which values the generator yields. Rounding is a separate matter: see
  `ProductData.SalePrice` under "Left out".
- The metadata is the datatype `ProductData.Metadata`. Each key that only
  some records carry is an `Option` field.
- Prices, weights and lengths are integers in hundredths. This matches the
  source's `round(x, 2)`.
- The builder is the method `GenerateProductData`, specified by the recursive
  function `Batch`. Its loop body is split into `NextRecord` and
  `AddCategoryFields`, which keep the source's draw order. The properties are
  proved as lemmas about `Batch`.

Two behaviours of the code worth noting:

- `generate_product_data` with a negative count returns an empty list, as
  Python's `range` does. It does not reject the count.
- `seed_database` catches only `OperationalError` while connecting. Any other
  connection error propagates at once, without a retry. So raising is not
  reserved for exhausted retries.

## Model

| member | source | states |
|---|---|---|
| `Rand.BelowAt` | scripts/generate_data.py:38-39 | one `_randbelow(n)` draw yields an index below n and advances the stream by one position |
| `Rand.RandomAt` | scripts/generate_data.py:68 | `random()` yields k / 2^53 with 0 <= k < 2^53, taking one draw |
| `Rand.ChoiceAt` | scripts/generate_data.py:38-39 | `choice(xs)` on a non-empty list returns an element of that list, taking one draw |
| `Rand.RandIntAt` | scripts/generate_data.py:52 | `randint(a, b)` returns a value in [a, b], taking one draw |
| `Rand.SampleAt` | scripts/generate_data.py:44 | `sample(xs, 2)` returns two elements of xs, distinct whenever xs has no duplicates, taking two draws |
| `Rand.ScaleRound` | scripts/generate_data.py:40 | scaling a unit draw onto a span of d hundredths and rounding it stays within [0, d] |
| `Rand.UniformCentsAt` | scripts/generate_data.py:40 | `round(uniform(lo, hi), 2)` in hundredths lies in [lo, hi], taking one draw |
| `Rand.Random.constructor` | scripts/generate_data.py:2 | a generator that starts at the head of the stream of its initial seed |
| `Rand.Random.Seed` | scripts/generate_data.py:29 | `random.seed(s)` selects the stream of s and restarts it at position 0 |
| `Rand.Random.Random` | scripts/generate_data.py:68 | the method returns the next draw as `RandomAt` gives it, advances the cursor and keeps the seed |
| `Rand.Random.Choice` | scripts/generate_data.py:38-39 | the method returns the element `ChoiceAt` picks at the cursor and advances past it |
| `Rand.Random.RandInt` | scripts/generate_data.py:52 | the method returns the value `RandIntAt` gives at the cursor and advances past it |
| `Rand.Random.Sample` | scripts/generate_data.py:44 | the method returns the pair `SampleAt` gives at the cursor and advances past both draws |
| `Rand.Random.UniformCents` | scripts/generate_data.py:46 | the method returns the value `UniformCentsAt` gives at the cursor and advances past it |
| `Decimal.NatToString` | scripts/generate_data.py:72 | `str(i+1)` is a non-empty string of decimal digits with no leading zero |
| `Decimal.ParseNatToString` | scripts/generate_data.py:72 | the item number written into a name reads back as the same number |
| `Decimal.NatToStringInjective` | scripts/generate_data.py:72 | different item numbers give different digit strings |
| `ProductData.ItemName` | scripts/generate_data.py:72 | the name starts with the brand, has the category after the first space, and ends with the item number |
| `ProductData.ItemIndexOfName` | scripts/generate_data.py:72 | a name `"{brand} {category} Item {k}"` ends with the number k, for any brand and category |
| `ProductData.SalePrice` | scripts/generate_data.py:69 | `round(msrp * uniform(0.5, 0.9), 2)` lies between half of msrp and msrp |
| `ProductData.SalePriceAnyRounding` | scripts/generate_data.py:69 | under any rounding to cents that lands at most half a cent below the exact product, including Python's round-half-even, the sale price is at least half of msrp less one cent |
| `ProductData.SaleAt` | scripts/generate_data.py:68-69 | a sale price is present exactly when the trigger draw exceeds 0.8 (`OnSale`, line 68), and then it lies between half of msrp and msrp |
| `ProductData.CategoryFieldsAt` | scripts/generate_data.py:50-66 | Electronics adds only spec and sensor keys and Furniture only its three keys; other categories draw nothing and change nothing; pricing, tags and weight stay unchanged |
| `ProductData.RecordAt` | scripts/generate_data.py:38-76 | one loop pass takes between 7 draws (Apparel or Appliances, no sale) and 13 draws (Furniture with a sale); what the record satisfies is stated by `RecordAtWellFormed` |
| `ProductData.Batch` | scripts/generate_data.py:35-37 | the batch for count n holds exactly n records |
| `ProductData.RecordAtWellFormed` | scripts/generate_data.py:38-76 | a record at any stream position has the shape `WellFormed` describes below, and building it consumes at least one draw |
| `ProductData.BatchWellFormed` | scripts/generate_data.py:31-76 | record i of every batch: category one of four, brand one of six, name `brand + " " + category + " Item " + str(i+1)`, msrp in [10.00, 1000.00], sale price within [msrp/2, msrp], two distinct tags from the vocabulary, weight in [0.50, 50.00], Electronics keys (battery 1..24, wireless, one sensor with type and accuracy from their lists) if and only if Electronics, Furniture keys (three dimensions in [50.00, 200.00], a material from the list, assembly flag) if and only if Furniture |
| `ProductData.BatchPrefix` | scripts/generate_data.py:29-69 | reseeding and the fixed draw order make the batch for n records a prefix of the batch for m >= n records |
| `ProductData.BatchNamesDistinct` | scripts/generate_data.py:72 | no two records of a batch share a name |
| `ProductData.NextRecord` | scripts/generate_data.py:38-76 | one loop pass builds record i from the draws at the cursor, as `RecordAt` describes, and leaves the seed alone |
| `ProductData.AddCategoryFields` | scripts/generate_data.py:50-66 | the in-place updates of the metadata for the record's category give what `CategoryFieldsAt` gives, from the same draws |
| `ProductData.GenerateProductData` | scripts/generate_data.py:20-78 | the result is `Batch(stream of seed 91, max(n, 0))`, where `Count` gives max(n, 0) as `range(num_records)` does at line 37; it does not depend on the generator's earlier state, and count 0 or less gives an empty list |
| `ProductData.RerunReproduces` | scripts/generate_data.py:29 | two calls with the same count return equal lists, and every record of them is well formed |
| `ConnectRetry.Schedule` | scripts/generate_data.py:90-99 | n attempts log 2n - 1 steps and end with an attempt |
| `ConnectRetry.ConnectWithRetry` | scripts/generate_data.py:90-99 | at most five attempts; every attempt but the last failed with an OperationalError; the loop stops at the first success or at the first other error; the result is that attempt's connection or its error; the log alternates attempts and two-second sleeps |
| `ConnectRetry.RetrySpecUnique` | scripts/generate_data.py:90-99 | the connect outcomes alone fix the number of attempts and the result |
| `ConnectRetry.ReraiseOnlyWhenAllFail` | scripts/generate_data.py:95-97 | an OperationalError is raised if and only if all five attempts failed with one, and it is the error of attempt MAX_RETRIES - 1 |
| `ConnectRetry.SleepFollowsRetryableFailure` | scripts/generate_data.py:98-99 | every sleep lasts two seconds and directly follows a failed attempt that was caught and was not the last allowed |
| `ConnectRetry.ScheduleAt` | scripts/generate_data.py:90-99 | position q of the log is attempt q/2 when q is even and a sleep when it is odd |

## Left out

- All database work in `seed_database` (scripts/generate_data.py:101-145): the second `connect` at line 102, `CREATE TABLE`, `TRUNCATE ... RESTART IDENTITY`, `DROP INDEX`, `execute_values`, `commit`, `close` and the catch-all `except` at line 141. It is I/O against a server. The model does not capture that the second connect leaks the first connection, or that the catch-all hides every later error.
- The call `generate_product_data(RECORD_COUNT)` at line 127 and the constant `RECORD_COUNT` belong to that database flow and are not modelled separately.
- `json.dumps` (line 75). The metadata stays a datatype, so neither key order nor the JSON text is modelled.
- The Mersenne Twister behind `random.seed` and the draws. Each seed's stream is an arbitrary function, a constant of the `Random` object. Every contract holds for every stream, so the model never reproduces actual values.
- The number of raw 32-bit words a draw takes. CPython's `_randbelow` may reject and redraw, and `random()` takes two words. The model counts one stream position per primitive draw. This is the granularity at which the draw order, determinism and prefix properties are stated.
- Rand.BelowAt: maps a raw value to an index by `% n`. It does not model CPython's rejection sampling, which is uniform; only the range is promised.
- ProductData.SalePrice: its lower bound `msrp <= 2 * sale` depends on rounding half up. Python's `round` rounds half to even, so msrp 10.01 with ratio 0.5 gives 5.00, one cent below half of msrp. `SalePriceAnyRounding` states the bound that holds under either rounding: at least half of msrp less one cent.
- Floating point. `random() > 0.8` is `5k > 4 * 2^53`, which ignores that 0.8 is not exact in binary. Each `round(..., 2)` rounds half up on exact rationals. IEEE arithmetic and round-half-even are not modelled.
- `time.sleep` is a `Sleep(seconds)` step in the log. The `print` messages and the `DB_CONFIG` credentials (lines 7-13) are not modelled.
- Exceptions other than `psycopg2.OperationalError` raised by `connect` are the `OtherError` outcome. The model does not distinguish them further.
