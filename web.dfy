/** The network as the scrapers see it: every call is a request that is
    logged; what comes back is given by the environment. */
module Web {
  import opened Wrappers
  import opened Values

  /** A GET request: a base URL and its query parameters, in order. */
  datatype Request = Request(url: string, params: seq<(string, string)>)

  /** One listing card of a search page: its label text and its link. */
  datatype Card = Card(text: string, href: string)

  /** What the HTML selectors find in a fetched page: the listing cards, the
      number of pagination items, the `geo.position` meta content, the text
      three nodes after the "Available on" heading, the texts of the price
      blocks and the texts of the breadcrumb items. */
  datatype Html = Html(
    cards: seq<Card>,
    pageItems: nat,
    geoPosition: Option<string>,
    availableOn: Option<string>,
    priceTexts: seq<string>,
    crumbs: seq<string>)

  /** The log after two appends is the log after one append of both parts,
      and the old log is a prefix of the new. */
  lemma LogExtends(log: seq<Request>, b: seq<Request>, c: seq<Request>)
    ensures log + b + c == log + (b + c)
    ensures log <= log + b
  {
  }

  lemma LogPrefixTrans(a: seq<Request>, b: seq<Request>, c: seq<Request>)
    requires a <= b && b <= c
    ensures a <= c
  {
    assert c[..|a|] == b[..|a|];
  }

  class Network {
    /** Every request issued so far, oldest first. */
    var sent: seq<Request>
    /** The parsed HTML document served for a request. */
    const page: Request -> Html
    /** The JSON body served for a request. */
    const api: Request -> Json

    constructor (page: Request -> Html, api: Request -> Json)
      ensures sent == [] && this.page == page && this.api == api
    {
      sent := [];
      this.page := page;
      this.api := api;
    }

    /** `requests.get` followed by HTML parsing. */
    method Fetch(req: Request) returns (h: Html)
      modifies this
      ensures sent == old(sent) + [req] && h == page(req)
    {
      sent := sent + [req];
      h := page(req);
    }

    /** `requests.get(...).json()`. */
    method Query(req: Request) returns (j: Json)
      modifies this
      ensures sent == old(sent) + [req] && j == api(req)
    {
      sent := sent + [req];
      j := api(req);
    }
  }
}
