/**
  `City`: a city record.  Two cities are equal exactly when their ids are,
  whatever their names; the hash code is the id, and a city is displayed as
  its name.
 */
module Cities {
  import opened JavaLang

  class City {
    var cityId: int32
    var cityName: Option<string>

    /** `City()`: every field keeps Java's default. */
    constructor Default()
      ensures cityId == 0 && cityName == None
    {
      cityId, cityName := 0, None;
    }

    /** `City(cityName)`: the id stays 0 until the database assigns one. */
    constructor Named(name: Option<string>)
      ensures cityId == 0 && cityName == name
    {
      cityId, cityName := 0, name;
    }

    /** `City(cityId, cityName)` */
    constructor Create(id: int32, name: Option<string>)
      ensures cityId == id && cityName == name
    {
      cityId, cityName := id, name;
    }

    method SetCityId(id: int32)
      modifies this`cityId
      ensures cityId == id
    {
      cityId := id;
    }

    method SetCityName(name: Option<string>)
      modifies this`cityName
      ensures cityName == name
    {
      cityName := name;
    }

    /** What a combo box shows for the city: its name only, never its id. */
    function ToString(): Option<string>
      reads this
    {
      cityName
    }

    /** `equals(Object o)`: the same object, or another `City` with the same id. */
    predicate Equals(o: object?)
      reads this, o
    {
      this == o || (o is City && (o as City).cityId == cityId)
    }

    /** `hashCode()` is `Integer.hashCode(cityId)`, which is `cityId` itself. */
    function HashCode(): int32
      reads this
    {
      cityId
    }
  }

  /** Two cities with the same name show the same text, whatever their ids. */
  lemma ToStringShowsNameOnly(a: City, b: City)
    requires a.cityName == b.cityName
    ensures a.ToString() == b.ToString()
  {
  }

  /** Equality is decided by the id alone: a city name never matters. */
  lemma EqualsIffSameId(c: City, o: object?)
    ensures c.Equals(o) <==> (o is City && (o as City).cityId == c.cityId)
  {
  }

  lemma EqualsReflexive(c: City)
    ensures c.Equals(c)
  {
  }

  lemma EqualsNullIsFalse(c: City)
    ensures !c.Equals(null)
  {
  }

  lemma EqualsSymmetricTransitive(a: City, b: City, c: City)
    ensures a.Equals(b) <==> b.Equals(a)
    ensures a.Equals(b) && b.Equals(c) ==> a.Equals(c)
  {
  }

  /** Equal cities have equal hash codes, as `Object.hashCode` requires. */
  lemma HashCodeAgreesWithEquals(a: City, o: object?)
    requires a.Equals(o)
    ensures o is City && a.HashCode() == (o as City).HashCode()
  {
  }
}
