/** The compiled-in credential directory of config.py: the keys of `USER_DATA`. */
module Config {
  /** Each key is "{phone}-{zip}"; every entry's value is `{"authenticated": True}`. */
  const UserData: set<string> := {"1234567890-98109", "9876543210-12345"}

  /** The directory key checked for a phone and a zip code: f"{phone}-{zip}". */
  function Key(phone: string, zip: string): (k: string)
    ensures |k| == |phone| + 1 + |zip| && k[|phone|] == '-'
    ensures k[..|phone|] == phone && k[|phone| + 1..] == zip
  {
    phone + "-" + zip
  }

  /** A 10-digit phone and a 5-digit zip are in the directory exactly for its two pairs. */
  lemma DirectoryPairs(phone: string, zip: string)
    requires |phone| == 10 && |zip| == 5
    ensures Key(phone, zip) in UserData <==>
              (phone == "1234567890" && zip == "98109") || (phone == "9876543210" && zip == "12345")
  {
    var k := Key(phone, zip);
    if k == "1234567890-98109" {
      assert phone == k[..10] == "1234567890";
      assert zip == k[11..] == "98109";
    } else if k == "9876543210-12345" {
      assert phone == k[..10] == "9876543210";
      assert zip == k[11..] == "12345";
    }
  }
}
