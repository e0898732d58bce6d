/** The check level_streamlit_app2.py applies to the URL field when the
    extract button is pressed, before anything is fetched. */
module LevelApp {
  import opened Text

  /** The three ways the button handler can go: the "enter a URL" warning,
      the "enter a valid Level Shoes URL" warning, or a fetch of the page. */
  datatype UrlCheck = AskForUrl | AskForLevelShoesUrl | Submit

  const LevelShoesHost: string := "levelshoes.com"

  predicate HasWebScheme(url: string)
  {
    StartsWith(url, "http://") || StartsWith(url, "https://")
  }

  /** Lines 138-147. */
  function CheckUrl(url: string): (c: UrlCheck)
    ensures c == AskForUrl <==> url == ""
    ensures c == Submit <==>
      url != "" && HasWebScheme(url) && exists i: nat :: OccursAt(url, LevelShoesHost, i)
    ensures c == AskForLevelShoesUrl <==>
      url != "" && (!HasWebScheme(url) || forall i: nat :: !OccursAt(url, LevelShoesHost, i))
  {
    if url == "" then AskForUrl
    else if !HasWebScheme(url) || !Contains(url, LevelShoesHost) then AskForLevelShoesUrl
    else Submit
  }

  /** The host cannot overlap the scheme: no character of "http://" or
      "https://" is an 'l', so an accepted URL holds both one after the
      other and is at least 21 characters long. */
  lemma {:induction false} SubmittedUrlLength(url: string)
    requires CheckUrl(url) == Submit
    ensures |url| >= |"http://"| + |LevelShoesHost|
  {
    var i: nat :| OccursAt(url, LevelShoesHost, i);
    assert url[i] == 'l' by {
      assert url[i..i + |LevelShoesHost|][0] == url[i];
    }
    var scheme := if StartsWith(url, "http://") then "http://" else "https://";
    assert scheme <= url;
  }

  /** Any page on www.levelshoes.com addressed over https is accepted. */
  lemma ListingPageIsSubmitted(path: string)
    ensures CheckUrl("https://www." + LevelShoesHost + path) == Submit
  {
    var url := "https://www." + LevelShoesHost + path;
    assert url[..8] == "https://";
    assert url[12..26] == LevelShoesHost;
    assert OccursAt(url, LevelShoesHost, 12);
  }

  /** The host alone, without a scheme, is refused. */
  lemma HostWithoutSchemeIsRefused()
    ensures CheckUrl("www.levelshoes.com") == AskForLevelShoesUrl
  {
    var url := "www.levelshoes.com";
    assert url[0] == 'w';
  }
}
