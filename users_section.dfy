/** The user list screen (`UsersSection`). Its guard is spelled
    `!token || token.length < 0` and redirects before it warns. */
module UserList {
  import opened Types
  import opened Effects
  import opened Session
  import opened Collections

  function UserKey(u: User): int
  {
    u.id
  }

  class UsersSection {
    var users: seq<User>
    var loading: bool
    ghost var trace: seq<Event>

    constructor ()
      ensures users == [] && loading && trace == []
    {
      users := [];
      loading := true;
      trace := [];
    }

    /** The mount effect. `response` is what `getAllUsers` answers, None
        standing for `success: false`. */
    method LoadEffect(token: Option<string>, response: Option<seq<User>>)
      modifies this
      ensures !RejectsAsWritten(token) ==>
        && users == (if response.Some? then response.value else old(users))
        && !loading
        && trace == old(trace) + [Remote(GetAllUsers)]
                   + (if response.Some? then [] else [Toast(Error, "Erro ao buscar dados")])
      ensures RejectsAsWritten(token) ==>
        && users == old(users)
        && loading == old(loading)
        && trace == old(trace) + [Push(LoginPath), Toast(Warning, LoginRequired)]
    {
      if RejectsAsWritten(token) {
        trace := trace + [Push(LoginPath)];
        trace := trace + [Toast(Warning, LoginRequired)];
      } else {
        trace := trace + [Remote(GetAllUsers)];
        if response.Some? {
          users := response.value;
        } else {
          trace := trace + [Toast(Error, "Erro ao buscar dados")];
        }
        loading := false;
      }
    }

    /** `handleRemoveUser(id)`; `removed` is the server's answer to `removeUser(id)`. */
    method HandleRemoveUser(id: int, removed: bool)
      modifies this
      ensures loading == old(loading)
      ensures users == if removed then WithoutKey(old(users), UserKey, id) else old(users)
      ensures trace == old(trace) + [Remote(RemoveUser(id))]
                       + [if removed then Toast(Success, "Usuário deletado") else Toast(Error, "Erro ao remover usuário")]
    {
      trace := trace + [Remote(RemoveUser(id))];
      if removed {
        var updatedUsers := WithoutKey(users, UserKey, id);
        users := updatedUsers;
        trace := trace + [Toast(Success, "Usuário deletado")];
      } else {
        trace := trace + [Toast(Error, "Erro ao remover usuário")];
      }
    }

    /** Which of the three blocks the screen renders. */
    function View(): ListView
      reads this
    {
      ViewOf(loading, |users|)
    }
  }
}
