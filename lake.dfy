/** The lake as a whole: the five generator scripts side by side, the
    buckets they write to, and where their objects land. */
module Lake {
  import opened Storage
  import LandingJson
  import LandingParquet
  import BronzeZone
  import SilverZone
  import GoldZone

  /** The four buckets the set-up creates (src/02_setup/01_create_buckets.py). */
  const Buckets: seq<string> := ["landing-zone", "bronze-zone", "silver-zone", "gold-zone"]

  /** The five generator scripts. */
  datatype Source = SapLanding | CloudXLanding | Bronze | Silver | Gold

  function BucketOf(s: Source): string
  {
    match s
    case SapLanding => LandingJson.Bucket
    case CloudXLanding => LandingParquet.Bucket
    case Bronze => BronzeZone.Bucket
    case Silver => SilverZone.Bucket
    case Gold => GoldZone.Bucket
  }

  function KeyOf(s: Source, timestamp: int): string
  {
    match s
    case SapLanding => LandingJson.Key(timestamp)
    case CloudXLanding => LandingParquet.Key(timestamp)
    case Bronze => BronzeZone.Key(timestamp)
    case Silver => SilverZone.Key(timestamp)
    case Gold => GoldZone.Key(timestamp)
  }

  /** The prefix and suffix of each script's key template. */
  function TemplateOf(s: Source): (string, string)
  {
    match s
    case SapLanding => (LandingJson.KeyPrefix, LandingJson.KeySuffix)
    case CloudXLanding => (LandingParquet.KeyPrefix, LandingParquet.KeySuffix)
    case Bronze => (BronzeZone.KeyPrefix, BronzeZone.KeySuffix)
    case Silver => (SilverZone.KeyPrefix, SilverZone.KeySuffix)
    case Gold => (GoldZone.KeyPrefix, GoldZone.KeySuffix)
  }

  /** The record-count range `random.randint(lo, hi)` of each script. */
  function CountRange(s: Source): (range: (int, int))
    ensures 1000 <= range.0 <= range.1
  {
    match s
    case SapLanding => (LandingJson.MinRecords, LandingJson.MaxRecords)
    case CloudXLanding => (LandingParquet.MinRecords, LandingParquet.MaxRecords)
    case Bronze => (BronzeZone.MinRecords, BronzeZone.MaxRecords)
    case Silver => (SilverZone.MinRecords, SilverZone.MaxRecords)
    case Gold => (GoldZone.MinRecords, GoldZone.MaxRecords)
  }

  /** Every script writes into one of the buckets the set-up creates, and
      only the two landing sources share a bucket. */
  lemma BucketsProvisioned(s: Source, t: Source)
    ensures BucketOf(s) in Buckets
    ensures BucketOf(s) == BucketOf(t) <==> s == t || {s, t} == {SapLanding, CloudXLanding}
  {
  }

  /** The two landing keys never coincide, whatever the two timestamps: the
      prefixes already differ at their ninth character. */
  lemma LandingKeysDisjoint(a: int, b: int)
    ensures LandingJson.Key(a) != LandingParquet.Key(b)
  {
    ObjectKeyAt(LandingJson.KeyPrefix, a, LandingJson.KeySuffix, 8);
    ObjectKeyAt(LandingParquet.KeyPrefix, b, LandingParquet.KeySuffix, 8);
  }

  /** Two runs, of the same script at different seconds or of different
      scripts at any seconds, never write the same object. */
  lemma RunsNeverCollide(s: Source, a: int, t: Source, b: int)
    requires s != t || a != b
    ensures (BucketOf(s), KeyOf(s, a)) != (BucketOf(t), KeyOf(t, b))
  {
    if s == t {
      var (prefix, suffix) := TemplateOf(s);
      assert KeyOf(s, a) == ObjectKey(prefix, a, suffix) && KeyOf(s, b) == ObjectKey(prefix, b, suffix);
      if KeyOf(s, a) == KeyOf(s, b) {
        ObjectKeyInjective(prefix, suffix, a, b);
      }
    } else if s == SapLanding && t == CloudXLanding {
      LandingKeysDisjoint(a, b);
    } else if s == CloudXLanding && t == SapLanding {
      LandingKeysDisjoint(b, a);
    }
  }
}
