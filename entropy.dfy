/** The outside sources the generators draw from: Python's `random` module,
    the `Faker('pt_BR')` provider and the local clock. Each is an oracle that
    promises only the range or membership the scripts rely on; the values
    themselves are chosen by the environment. */
module Entropy {
  import opened Numerals
  import opened Calendar

  /** The process-wide generator behind `random.randint`, `random.choice` and
      `random.uniform`. The ghost log `drawn` holds every value handed out,
      in order: the integer of a `RandInt`, the index picked by a `Choice`,
      the scaled value of a `Uniform`. */
  class Random {
    ghost var drawn: seq<int>

    constructor ()
      ensures drawn == []
    {
      drawn := [];
    }

    /** `random.randint(a, b)`: an integer in the closed range. */
    method RandInt(a: int, b: int) returns (r: int)
      requires a <= b
      modifies this
      ensures a <= r <= b
      ensures drawn == old(drawn) + [r]
    {
      r :| a <= r <= b;
      drawn := drawn + [r];
    }

    /** `random.choice(options)`: one of the options; the ghost `index` is
        the position picked, which is what the log records. */
    method Choice<T>(options: seq<T>) returns (r: T, ghost index: int)
      requires |options| > 0
      modifies this
      ensures 0 <= index < |options| && r == options[index]
      ensures drawn == old(drawn) + [index]
    {
      var i :| 0 <= i < |options|;
      r, index := options[i], i;
      drawn := drawn + [i];
    }

    /** `round(random.uniform(a, b), places)`, as a whole number of units of
        10^-places: a value between `a` and `b` inclusive. */
    method Uniform(a: int, b: int, places: nat) returns (r: int)
      requires a <= b
      modifies this
      ensures a * Pow10(places) <= r <= b * Pow10(places)
      ensures drawn == old(drawn) + [r]
    {
      r :| a * Pow10(places) <= r <= b * Pow10(places);
      drawn := drawn + [r];
    }
  }

  /** The Faker generators whose output the scripts store as opaque text. */
  datatype Attribute =
    | Uuid4 | Name | Email | PhoneNumber | Address | StreetAddress
    | City | CitySuffix | State | Postcode | Company | Job | Cnpj

  /** The module-level `Faker('pt_BR')` instance. The ghost log `made` holds
      every text it has handed out, in order, each with the generator that
      made it. */
  class Faker {
    ghost var made: seq<(Attribute, string)>

    constructor ()
      ensures made == []
    {
      made := [];
    }

    /** `fake.<attribute>()`: text the scripts store without inspecting it. */
    method Fake(attribute: Attribute) returns (s: string)
      modifies this
      ensures made == old(made) + [(attribute, s)]
    {
      s := *;
      made := made + [(attribute, s)];
    }

    /** The record's Faker text: `fake.<a>()` for each attribute in turn,
        each text paired with its attribute. Faker's generator is its own,
        separate from `random`, so taking all of a record's text before its
        `random` draws changes neither log. */
    method FakeEach(attributes: seq<Attribute>) returns (texts: seq<(Attribute, string)>)
      modifies this
      ensures |texts| == |attributes|
      ensures forall i :: 0 <= i < |texts| ==> texts[i].0 == attributes[i]
      ensures made == old(made) + texts
    {
      texts := [];
      for i := 0 to |attributes|
        invariant |texts| == i
        invariant forall k :: 0 <= k < i ==> texts[k].0 == attributes[k]
        invariant made == old(made) + texts
      {
        var s := Fake(attributes[i]);
        texts := texts + [(attributes[i], s)];
      }
    }
  }

  /** `fake.date_of_birth(minimum_age, maximum_age)`. */
  method DateOfBirth(minimumAge: nat, maximumAge: nat) returns (d: Date)
    requires minimumAge <= maximumAge
    ensures ValidDate(d)
  {
    assert ValidDate(Date(2000, 1, 1));
    d :| ValidDate(d);
  }

  /** `fake.date_between(start_date='-<yearsBack>y', end_date='today')`. */
  method DateBetween(yearsBack: nat) returns (d: Date)
    ensures ValidDate(d)
  {
    assert ValidDate(Date(2000, 1, 1));
    d :| ValidDate(d);
  }

  /** `time.localtime()`, read afresh by every `time.strftime` call. */
  method LocalTime() returns (t: DateTime)
    ensures ValidDateTime(t)
  {
    assert ValidDateTime(DateTime(Date(2000, 1, 1), 0, 0, 0));
    t :| ValidDateTime(t);
  }
}
