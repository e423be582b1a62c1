/** The dashboard (`HomeSection`): a guarded one-shot load of the summary counts. */
module Home {
  import opened Types
  import opened Effects
  import opened Session

  class HomeSection {
    var data: Option<Dashboard>
    var loading: bool
    ghost var trace: seq<Event>

    constructor ()
      ensures data == None && loading && trace == []
    {
      data := None;
      loading := true;
      trace := [];
    }

    /** The mount effect. `response` is what `getGeralData` answers, None
        standing for `success: false`. A failed load warns rather than errs. */
    method LoadEffect(token: Option<string>, response: Option<Dashboard>)
      modifies this
      ensures Admits(token) ==>
        && data == (if response.Some? then response else old(data))
        && !loading
        && trace == old(trace) + [Remote(GetGeralData)]
                   + (if response.Some? then [] else [Toast(Warning, "Falha ao buscar dados")])
      ensures !Admits(token) ==>
        && data == old(data)
        && loading == old(loading)
        && trace == old(trace) + [Toast(Warning, LoginRequired), Push(LoginPath)]
    {
      if Admits(token) {
        trace := trace + [Remote(GetGeralData)];
        if response.Some? {
          data := response;
        } else {
          trace := trace + [Toast(Warning, "Falha ao buscar dados")];
        }
        loading := false;
      } else {
        trace := trace + [Toast(Warning, LoginRequired)];
        trace := trace + [Push(LoginPath)];
      }
    }
  }
}
