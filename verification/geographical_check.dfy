/** Filters connections by the country and city of the address. The geo
    lookups (country code and city of the address) are inputs. */
module GeographicalCheck {
  import opened Config

  /** A blacklisted city always restricts; otherwise the country list decides,
      as a blacklist or as a whitelist. Membership is exact list containment. */
  function IsRestricted(geo: Geographical, country: string, city: string): (r: bool)
    ensures city in geo.cityBlacklist ==> r
    ensures city !in geo.cityBlacklist && geo.isBlacklist ==> (r <==> country in geo.countries)
    ensures city !in geo.cityBlacklist && !geo.isBlacklist ==> (r <==> country !in geo.countries)
  {
    if city in geo.cityBlacklist then true
    else if geo.isBlacklist then country in geo.countries
    else country !in geo.countries
  }

  /** For a city that is not blacklisted, flipping the list between blacklist
      and whitelist flips the verdict. */
  lemma ListModesComplementary(geo: Geographical, country: string, city: string)
    requires city !in geo.cityBlacklist
    ensures IsRestricted(geo.(isBlacklist := true), country, city)
            != IsRestricted(geo.(isBlacklist := false), country, city)
  {
  }

  /** Blacklisting one more city never lets an address through that was restricted. */
  lemma CityBlacklistMonotone(geo: Geographical, extra: string, country: string, city: string)
    ensures IsRestricted(geo, country, city) ==>
            IsRestricted(geo.(cityBlacklist := geo.cityBlacklist + [extra]), country, city)
  {
  }

  /** Membership is exact: a country code in another case is not on the list,
      so a whitelist of "US" restricts "us". */
  lemma MembershipIsExact(geo: Geographical)
    requires geo.cityBlacklist == [] && !geo.isBlacklist && geo.countries == ["US"]
    ensures IsRestricted(geo, "us", "")
    ensures !IsRestricted(geo, "US", "")
  {
    assert "us" != "US" by { assert "us"[0] != "US"[0]; }
  }

  /** The check's verdict: the restriction, gated by the configured mode. */
  function IsDetected(config: PluginConfiguration, underAttack: bool, country: string, city: string): (r: bool)
    ensures r <==> IsRestricted(config.geographical, country, city)
                   && IsActive(config.geographical.checkMode, underAttack)
  {
    Evaluate(config.geographical.checkMode, underAttack, IsRestricted(config.geographical, country, city))
  }

  /** With the default configuration (mode NEVER) nobody is detected. */
  lemma DefaultNeverDetects(underAttack: bool, country: string, city: string)
    ensures !IsDetected(DefaultConfig, underAttack, country, city)
  {
  }

  /** The default lists: an address from France is restricted, one from
      Germany is not, unless its city is blacklisted. */
  lemma DefaultListsExample()
    ensures IsRestricted(DefaultConfig.geographical, "FR", "Paris")
    ensures !IsRestricted(DefaultConfig.geographical, "DE", "Berlin")
    ensures IsRestricted(DefaultConfig.geographical, "DE", "ExampleCity")
  {
    var geo := DefaultConfig.geographical;
    assert geo.countries == ["US", "DE"] && geo.cityBlacklist == ["ExampleCity", "AnotherCity"];
    assert !geo.isBlacklist;
    assert "FR" !in geo.countries by {
      assert "FR"[0] != "US"[0] && "FR"[0] != "DE"[0];
    }
    assert "Paris" !in geo.cityBlacklist by {
      assert "Paris"[0] != "ExampleCity"[0] && "Paris"[0] != "AnotherCity"[0];
    }
    assert "Berlin" !in geo.cityBlacklist by {
      assert "Berlin"[0] != "ExampleCity"[0] && "Berlin"[0] != "AnotherCity"[0];
    }
  }
}
