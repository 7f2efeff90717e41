# Medallion data-lake generators, modelled in Dafny

The repository simulates a "medallion" data lake on an S3-compatible store.
Four buckets stand for the ingestion stages (`landing-zone`, `bronze-zone`,
`silver-zone`, `gold-zone`). Five scripts fill them with synthetic customer
records. Each script does the same three things:

1. it draws a record count from a fixed inclusive range;
2. it builds that many records in a loop, drawing values from Python's
   `random`, from `Faker('pt_BR')` and from the local clock;
3. it uploads the list under `<prefix><unix seconds><suffix>` in its bucket,
   with a fixed serialisation and content type.

| module | script | bucket | format | count | key |
|---|---|---|---|---|---|
| `LandingJson` | `03_landing_json.py` | landing-zone | JSON | 1000–10000 | `dataway/sap/clients/clients_data_{ts}.json` |
| `LandingParquet` | `04_landing_parquet.py` | landing-zone | Parquet | 1000–10000 | `dataway/cloud_x/clients/clients_data_{ts}.parquet` |
| `BronzeZone` | `03_bronze_zone.py` | bronze-zone | CSV | 2000–8000 | `processed/protheus/clients_bronze_{ts}.csv` |
| `SilverZone` | `04_silver_zone.py` | silver-zone | JSON | 1500–6000 | `enriched/sap/clients_silver_{ts}.json` |
| `GoldZone` | `05_gold_zone.py` | gold-zone | Parquet | 1000–4000 | `analytics/cloud_x/clients_gold_{ts}.parquet` |

How the model is laid out:

- `numerals.dfy` (`Numerals`): `str(int)` and the zero-padded fields of
  `strftime`, each with its inverse.
- `calendar.dfy` (`Calendar`): dates, local times, and the two layouts
  `'%Y-%m-%d'` and `'%Y-%m-%d %H:%M:%S'`. Each layout has a shape predicate
  and a parser that undoes it. `IsCalendarDate` and `IsCalendarDateTime`
  say that a text is what the layout writes for a real date or time, not
  just that it has the right shape.
- `entropy.dfy` (`Entropy`): the outside sources, as oracles.
  - `Random` stands for the `random` module. `RandInt`, `Choice` and
    `Uniform` promise only their range or membership. A ghost log `drawn`
    records every value handed out, in order.
  - `Faker` stands for the `Faker('pt_BR')` instance. Its text is opaque.
    A ghost log `made` records every text it hands out, in order, paired
    with the generator (`name`, `email`, …) that produced it.
    `FakeEach` makes one `fake.<attribute>()` call per attribute in a list.
  - `DateOfBirth` and `DateBetween` return valid dates.
  - `LocalTime` is the clock that `time.strftime` reads.
- `storage.dfy` (`Storage`): the dictionary values the scripts build
  (`Value`, and `Dict`, whose keys must be `Distinct` as in a Python
  literal); the list handed to the serialiser (`Table`); the three formats
  and their content types; the key
  template `ObjectKey`, whose timestamp can be read back; and the object
  store. `Save` is the common `save_to_minio_bucket`. A failed save leaves
  the store unchanged.
- One module per script. Each has:
  - a typed record datatype;
  - a predicate the script's records always satisfy (`GoldOk`, `RecordOk`, …);
  - `Row`, the dictionary literal that gets serialised;
  - the key function (its injectivity is `Storage.ObjectKeyInjective`,
    applied to all five scripts in `Lake.RunsNeverCollide`);
  - the loop as a method with invariants (`Generate…`);
  - `main` as a `Run…` method.

  `Run…` takes the clock reading `int(time.time())` as the parameter `now`.
  It states the record count and the object a successful save puts at the
  run's key. The put adds the object, or replaces one already at that key
  (a rerun in the same second overwrites).
- `lake.dfy` (`Lake`): facts across scripts. Every bucket written to is one
  that set-up creates. No two runs write the same object unless they are
  runs of the same script in the same second.

Money is held as fixed-point integers. `round(random.uniform(a, b), 2)` is a
number of cents in `[100·a, 100·b]`. The gold purchase propensity
(`round(..., 3)`) is a number of thousandths in `[0, 1000]`. The gold salary
buckets compare cents against 500000 and 1000000. This is the same as the
source comparing the rounded float against 5000 and 10000.

The gold `categoria_risco` does not read `score_credito`. It takes a fresh
draw in `[400, 850]`. If that draw is at most 700, it takes a second fresh
draw. The model keeps this exactly. `GoldZone.DrawRiskCategory` consumes one
or two draws. `GoldZone.DrawGoldRecord` states, through the draw log, that
the stored score is the fifth draw of the record and that the category reads
only the draws after it. `GoldZone.RiskIgnoresScore` states the consequence:
any stored score can sit next to any category.

Some behaviours of the code are easy to assume otherwise. The model keeps
each of them as the code has it:
- The code has no generation or serialisation errors. It has no check for an
  empty record list. Every save catches all exceptions and returns `False`.
- The "derived" credit and purchase fields of the Parquet landing source are
  independent draws.
- The silver `data_admissao` looks back five years, not one to three.
- A record id is an opaque Faker value. Its uniqueness is not claimed.

## Model

| member | source | states |
|---|---|---|
| `Numerals.Decimal` | src/02_setup/05_gold_zone.py:119-120 | `str` of a non-negative timestamp is a non-empty run of digits that starts with `0` only for zero |
| `Numerals.IntToString` | src/02_setup/05_gold_zone.py:119-120 | `str(timestamp)` is an optional minus sign then digits; the sign is there exactly when the value is negative |
| `Numerals.IntRoundTrip` | src/02_setup/05_gold_zone.py:119-120 | reading the text of `str(i)` back gives `i` |
| `Numerals.IntToStringInjective` | src/02_setup/05_gold_zone.py:119-120 | distinct timestamps print differently |
| `Numerals.DecimalRoundTrip` | src/02_setup/05_gold_zone.py:119-120 | the digits of a non-negative integer read back to the integer |
| `Numerals.Padded` | src/02_setup/04_silver_zone.py:69 | a `strftime` numeric field is exactly its width in digits |
| `Numerals.PaddedRoundTrip` | src/02_setup/04_silver_zone.py:69 | a zero-padded field reads back to its number |
| `Calendar.FormatDate` | src/02_setup/03_bronze_zone.py:40-41 | `strftime('%Y-%m-%d')` of a valid date has the shape `YYYY-MM-DD` |
| `Calendar.FormatDateTime` | src/02_setup/03_bronze_zone.py:46 | `strftime('%Y-%m-%d %H:%M:%S')` of a valid local time has the shape `YYYY-MM-DD HH:MM:SS` |
| `Calendar.DateRoundTrip` | src/02_setup/03_landing_json.py:43-44 | parsing a formatted date gives the date back |
| `Calendar.DateTimeRoundTrip` | src/02_setup/04_silver_zone.py:69 | parsing a formatted update stamp gives the local time back |
| `Calendar.FormatDateInjective` | src/02_setup/04_silver_zone.py:41 | distinct dates are written differently |
| `Calendar.FormatDateTimeInjective` | src/02_setup/05_gold_zone.py:65 | distinct local times are written differently |
| `Calendar.FormatIsCalendarDate` | src/02_setup/03_bronze_zone.py:40-41 | what `%Y-%m-%d` writes for a valid date parses back to a valid date that is written the same way |
| `Calendar.FormatIsCalendarDateTime` | src/02_setup/03_bronze_zone.py:46 | what `%Y-%m-%d %H:%M:%S` writes for a valid local time parses back to a valid local time that is written the same way |
| `Calendar.CalendarDateMeaning` | src/02_setup/04_silver_zone.py:41 | a text is a calendar date iff `%Y-%m-%d` writes it for some valid date, and then for exactly one |
| `Calendar.CalendarDateTimeMeaning` | src/02_setup/04_silver_zone.py:69 | a text is a calendar stamp iff `%Y-%m-%d %H:%M:%S` writes it for some valid local time, and then for exactly one |
| `Entropy.Random.RandInt` | src/02_setup/05_gold_zone.py:34 | `random.randint(a, b)` gives a value in `[a, b]` and logs it |
| `Entropy.Random.Choice` | src/02_setup/05_gold_zone.py:45 | `random.choice(L)` gives an element of `L` and logs its index |
| `Entropy.Random.Uniform` | src/02_setup/05_gold_zone.py:33 | `round(random.uniform(a, b), p)` is in `[a, b]` counted in units of 10^-p and is logged |
| `Entropy.DateOfBirth` | src/02_setup/03_bronze_zone.py:40 | `fake.date_of_birth` gives a valid calendar date |
| `Entropy.DateBetween` | src/02_setup/03_bronze_zone.py:41 | `fake.date_between` gives a valid calendar date |
| `Entropy.LocalTime` | src/02_setup/03_bronze_zone.py:46 | the local time `time.strftime` formats is a valid date and time of day |
| `Entropy.Faker.Fake` | src/02_setup/04_silver_zone.py:32-33 | `fake.<attribute>()` hands out one text and appends it, paired with the attribute, to the log `made` |
| `Entropy.Faker.FakeEach` | src/02_setup/03_bronze_zone.py:32-39 | one `fake.<attribute>()` per attribute, in order: one text per attribute, each paired with its attribute and appended to `made` in the list's order |
| `Storage.ObjectKey` | src/02_setup/05_gold_zone.py:120 | `f"{prefix}{timestamp}{suffix}"` is the prefix, then `str(timestamp)` (an optional minus sign and digits), then the suffix; the same template builds every script's key |
| `Storage.ObjectKeyAt` | src/02_setup/03_landing_json.py:104 | every character of the prefix sits at its own position in the key, whatever the timestamp |
| `Storage.ObjectKeyRoundTrip` | src/02_setup/05_gold_zone.py:119-120 | the timestamp can be read back out of a key between its prefix and suffix |
| `Storage.ObjectKeyInjective` | src/02_setup/05_gold_zone.py:119-120 | for a fixed prefix and suffix, distinct timestamps give distinct keys |
| `Storage.DistinctConcat` | src/02_setup/05_gold_zone.py:36-66 | two key lists without repeats and without a common key join into a list without repeats |
| `Storage.TableSchema` | src/02_setup/05_gold_zone.py:85 | when every record gives a dictionary with the same keys, the list handed to `pd.DataFrame` has one dictionary per record, each with exactly those keys |
| `Storage.ObjectStore.PutObject` | src/02_setup/05_gold_zone.py:93-98 | a successful put stores the body and content type at (bucket, key) and changes nothing else; a failed put changes nothing |
| `Storage.Save` | src/02_setup/05_gold_zone.py:73-105 | on `True`, the object is put at (bucket, key), adding or replacing, serialised in the script's format with that format's content type; on `False` (any exception) the store is unchanged |
| `GoldZone.AgeBand` | src/02_setup/05_gold_zone.py:42 | `JOVEM` iff age < 30, `ADULTO` iff 30 ≤ age < 50, `SENIOR` iff age ≥ 50 |
| `GoldZone.SalaryBand` | src/02_setup/05_gold_zone.py:47 | `BAIXA` iff salary < 5000, `MEDIA` iff 5000 ≤ salary < 10000, `ALTA` iff salary ≥ 10000 (in cents) |
| `GoldZone.RiskCategory` | src/02_setup/05_gold_zone.py:52 | `BAIXO` iff the first risk draw > 700; otherwise `MEDIO` iff the second draw > 600, else `ALTO` |
| `GoldZone.Row` | src/02_setup/05_gold_zone.py:36-68 | the dictionary has exactly the 31 columns `cliente_id` … `versao_dados` in order; `ultima_compra` and `data_cadastro` are dates, the update stamp is text |
| `GoldZone.ColumnsDistinct` | src/02_setup/05_gold_zone.py:36-66 | the 31 column names of the literal are pairwise distinct |
| `GoldZone.RiskIgnoresScore` | src/02_setup/05_gold_zone.py:51-52 | the stored score does not constrain the risk category: any score in range fits with any category |
| `GoldZone.DrawRiskCategory` | src/02_setup/05_gold_zone.py:52 | one draw in `[400, 850]`, and a second only when the first is ≤ 700; the category is `RiskCategory` of exactly those draws |
| `GoldZone.DrawProfile` | src/02_setup/05_gold_zone.py:33-51 | salary, age, region, sector and score are the five draws in that order, each in its range or vocabulary |
| `GoldZone.DrawHabits` | src/02_setup/05_gold_zone.py:53-64 | the ten draws after the risk expression, in order, each in its range or vocabulary |
| `GoldZone.DrawGoldRecord` | src/02_setup/05_gold_zone.py:32-68 | the record satisfies `GoldOk`: bounds, vocabularies, buckets that agree with the stored age and salary, a real update stamp, and the `CLOUD_X`/`2.0` constants; its eight Faker texts are logged in the literal's order, each with its generator (`uuid4`, `name`, `email`, `phone_number`, `city`, `state`, `company`, `job`), and stored unchanged; its `random` draws are the profile, then the risk draws, then the habits; each of the five profile and ten habit draws is the value (or the index of the value) of its column; the score is the fifth draw and the category reads only the risk draws |
| `GoldZone.GenerateGoldData` | src/02_setup/05_gold_zone.py:27-71 | exactly `num_records` records (none when it is not positive), each satisfying `GoldOk` |
| `GoldZone.Key` | src/02_setup/05_gold_zone.py:120 | the key is `analytics/cloud_x/clients_gold_`, then `str(timestamp)`, then `.parquet`, and the timestamp reads back out of it |
| `GoldZone.RunGoldZone` | src/02_setup/05_gold_zone.py:107-128 | 1000–4000 `GoldOk` records; on success the Parquet object is put (added or replaced) at `gold-zone`/`analytics/cloud_x/clients_gold_{now}.parquet`, else no change |
| `SilverZone.Row` | src/02_setup/04_silver_zone.py:35-74 | the top-level keys are exactly `cliente_id` and the five groups; each group is a non-empty dictionary with its fixed keys (6, 7, 5, 4, 5) |
| `SilverZone.DrawSilverRecord` | src/02_setup/04_silver_zone.py:31-74 | the record satisfies `SilverOk`: real `YYYY-MM-DD` dates and update stamp, the vocabularies, the salary range, `Brasil`, `pt-BR` and the `SAP`/`1.0`/`PROCESSADO` metadata; its eleven Faker texts are logged in order, each with its generator: the single `fake.name()` and `fake.email()` first, then `uuid4`, `phone_number`, `street_address`, `city_suffix`, `city`, `state`, `postcode`, `company` and `job`; each is stored unchanged, the first two as `nome_completo` and `email_principal` |
| `SilverZone.GenerateSilverData` | src/02_setup/04_silver_zone.py:26-77 | exactly `num_records` records (none when it is not positive), each satisfying `SilverOk` |
| `SilverZone.Key` | src/02_setup/04_silver_zone.py:121 | the key is `enriched/sap/clients_silver_`, then `str(timestamp)`, then `.json`, and the timestamp reads back out of it |
| `SilverZone.RunSilverZone` | src/02_setup/04_silver_zone.py:108-129 | 1500–6000 `SilverOk` records; on success the JSON object is put (added or replaced) at `silver-zone`/`enriched/sap/clients_silver_{now}.json` with type `application/json`, else no change |
| `LandingParquet.Row` | src/02_setup/04_landing_parquet.py:32-52 | the dictionary is flat with exactly the 19 columns `id` … `canal_preferido`; the date-typed values are exactly `data_nascimento`, `data_cadastro` and `ultima_compra` |
| `LandingParquet.DrawRecord` | src/02_setup/04_landing_parquet.py:31-52 | the record satisfies `RecordOk`: status, category and channel vocabularies, score in `[300, 850]`, the money ranges, valid dates; its nine Faker texts are logged in the literal's order, each with its generator (`uuid4`, `name`, `email`, `phone_number`, `address`, `city`, `state`, `postcode`, `company`), and each is stored unchanged in its column |
| `LandingParquet.GenerateRecords` | src/02_setup/04_landing_parquet.py:27-55 | exactly `num_records` records (none when it is not positive), each satisfying `RecordOk` |
| `LandingParquet.Key` | src/02_setup/04_landing_parquet.py:104 | the key is `dataway/cloud_x/clients/clients_data_`, then `str(timestamp)`, then `.parquet`, and the timestamp reads back out of it |
| `LandingParquet.RunLandingParquet` | src/02_setup/04_landing_parquet.py:91-112 | 1000–10000 records; on success the Parquet object is put (added or replaced) at `landing-zone`/`dataway/cloud_x/clients/clients_data_{now}.parquet` with type `application/octet-stream`, else no change |
| `LandingJson.Row` | src/02_setup/03_landing_json.py:31-57 | the 11 top-level keys; `endereco`, `empresa` and `preferencias` are non-empty dictionaries with keys {rua,cidade,estado,cep,pais}, {nome,cnpj,setor}, {comunicacao,idioma,newsletter}; nothing else is nested; the two dates are text |
| `LandingJson.DrawRecord` | src/02_setup/03_landing_json.py:30-57 | the record satisfies `RecordOk`: `Brasil`, `pt-BR`, the status, sector (no `Industrial`) and channel vocabularies, real `YYYY-MM-DD` dates, the salary range; its ten Faker texts are logged in the literal's order, each with its generator (`uuid4`, `name`, `email`, `phone_number`, `street_address`, `city`, `state`, `postcode`, `company`, `cnpj`), and each is stored unchanged in its field |
| `LandingJson.GenerateRecords` | src/02_setup/03_landing_json.py:26-60 | exactly `num_records` records (none when it is not positive), each satisfying `RecordOk` |
| `LandingJson.Key` | src/02_setup/03_landing_json.py:104 | the key is `dataway/sap/clients/clients_data_`, then `str(timestamp)`, then `.json`, and the timestamp reads back out of it |
| `LandingJson.RunLandingJson` | src/02_setup/03_landing_json.py:91-112 | 1000–10000 records; on success the JSON object is put (added or replaced) at `landing-zone`/`dataway/sap/clients/clients_data_{now}.json` with type `application/json`, else no change |
| `BronzeZone.Row` | src/02_setup/03_bronze_zone.py:31-47 | the dictionary is flat with exactly the 15 columns `cliente_id` … `data_atualizacao`; every value is text except the salary |
| `BronzeZone.CsvHeader` | src/02_setup/03_bronze_zone.py:68-69 | the table handed to `pd.DataFrame` has one dictionary per record, each with exactly the 15 columns in order |
| `BronzeZone.DrawBronzeRecord` | src/02_setup/03_bronze_zone.py:30-47 | the record satisfies `BronzeOk`: real `YYYY-MM-DD` dates, a real `YYYY-MM-DD HH:MM:SS` update stamp, status in {ATIVO, INATIVO, SUSPENSO}, salary in range; its ten Faker texts are logged in the literal's order, each with its generator (`uuid4`, `name`, `email`, `phone_number`, `address`, `city`, `state`, `postcode`, `company`, `job`), and each is stored unchanged in its column |
| `BronzeZone.GenerateBronzeData` | src/02_setup/03_bronze_zone.py:26-50 | exactly `num_records` records (none when it is not positive), each satisfying `BronzeOk` |
| `BronzeZone.Key` | src/02_setup/03_bronze_zone.py:95 | the key is `processed/protheus/clients_bronze_`, then `str(timestamp)`, then `.csv`, and the timestamp reads back out of it |
| `BronzeZone.RunBronzeZone` | src/02_setup/03_bronze_zone.py:82-103 | 2000–8000 records; on success the CSV object (no index column) is put (added or replaced) at `bronze-zone`/`processed/protheus/clients_bronze_{now}.csv` with type `text/csv`, else no change |
| `Lake.CountRange` | src/02_setup/05_gold_zone.py:112 | every script draws at least 1000 records from a non-empty range |
| `Lake.BucketsProvisioned` | src/02_setup/01_create_buckets.py:20-25 | every script writes into a bucket that set-up creates; only the two landing sources share a bucket |
| `Lake.LandingKeysDisjoint` | src/02_setup/04_landing_parquet.py:104 | the JSON and Parquet landing keys differ for every pair of timestamps |
| `Lake.RunsNeverCollide` | src/02_setup/05_gold_zone.py:119-123 | two runs write the same (bucket, key) only if they are the same script at the same second; in particular each script's key template is injective in the timestamp |

## Left out

- Bucket creation (`src/02_setup/01_create_buckets.py`): it is boto3 plumbing. Whether a second create succeeds depends on the backend. Only its bucket list is used (`Lake.Buckets`).
- Serialisation: the bytes that `json.dumps(indent=2, ensure_ascii=False)`, `DataFrame.to_csv(index=False)` and `to_parquet(engine='pyarrow')` produce are library code. A payload is kept as its format and the list of dictionaries. No JSON round trip is stated.
- The boto3 client, the endpoint and credentials, logging, and the success and failure messages of `main` are left out. `Run…` returns the success flag instead of logging it.
- Faker's output is opaque. Names, addresses, e-mails, companies, jobs, CNPJs and `uuid4` ids are logged text with no format. No uniqueness of ids is claimed. Faker's date draws are not logged.
- Entropy.Faker.FakeEach: a record's Faker texts are taken in one call before its `random` draws and dates, where the source interleaves them. Faker has its own generator, separate from `random`, so neither log's order changes.
- Entropy.DateOfBirth: promises a valid date, not an age between the two limits.
- Entropy.DateBetween: promises a valid date, not one inside the look-back window ending today.
- Distributions: uniformity and independence of the draws are not modelled. Only ranges and membership are.
- Floating point: money is exact fixed-point. Whether the float sum in `uniform` can land just outside `[a, b]` is not modelled.
- The clock: the key's timestamp is the parameter `now`. The per-record `time.strftime` readings come from `Entropy.LocalTime`. Nothing ties the readings to each other or to `now`, and time zones are not modelled.
- Calendar.ValidDate: only four-digit years are modelled. For earlier years `%Y` would not print four characters.
- GoldZone.GenerateGoldData: states the count and what each record satisfies. It does not say which draws made which record. The per-record draw order is stated by `GoldZone.DrawGoldRecord`.
- SilverZone.DrawSilverRecord: states what each record satisfies and where each Faker text goes, not which `random` draw went into which field.
- LandingJson.DrawRecord: states what each record satisfies and where each Faker text goes, not which `random` draw went into which field.
- LandingParquet.DrawRecord: states what each record satisfies and where each Faker text goes, not which `random` draw went into which field.
- BronzeZone.DrawBronzeRecord: states what each record satisfies and where each Faker text goes, not which `random` draw went into which field.
- SilverZone.GenerateSilverData: states the count and what each record satisfies, not which draws made which record.
- LandingJson.GenerateRecords: states the count and what each record satisfies, not which draws made which record.
- LandingParquet.GenerateRecords: states the count and what each record satisfies, not which draws made which record.
- BronzeZone.GenerateBronzeData: states the count and what each record satisfies, not which draws made which record.
