/** `Enviroment`: the component that marks the root of one environment and
    holds its id. */
module Enviroments {
  import opened Common
  import opened Hierarchy

  class Enviroment {
    var ID: int
    /** Set by `DestroyEnviroment`; Unity destroys the object at the end of
        the frame. */
    var destroyRequested: bool

    constructor (id: int)
      ensures ID == id && !destroyRequested
    {
      ID := id;
      destroyRequested := false;
    }

    function GetID(): (id: int)
      reads this
      ensures id == ID
    {
      ID
    }

    method SetEnviromentID(id: int)
      modifies this`ID
      ensures GetEnviromentID() == id && GetID() == id
    {
      ID := id;
    }

    /** The same field as `GetID`. */
    function GetEnviromentID(): (id: int)
      reads this
      ensures id == GetID()
    {
      ID
    }

    method DestroyEnviroment()
      modifies this`destroyRequested
      ensures destroyRequested
    {
      destroyRequested := true;
    }
  }

  /** The id of the environment an object belongs to: the `Enviroment` on
      the object itself or on its nearest ancestor. `envs` gives the
      component of each object that carries one. None stands for the null
      reference exception thrown when there is no such component. The
      preceding walk up the parents is kept, and its result discarded. */
  method GetCurrentEnviromentID(parent: map<nat, nat>, envs: map<nat, Enviroment>, o: nat) returns (id: Option<int>)
    requires Ordered(parent)
    ensures var n := NearestWith(parent, envs.Keys, o);
            id == if n.Some? then Some(envs[n.value].ID) else None
    ensures id.None? <==> forall i :: 0 <= i < |Chain(parent, o)| ==> Chain(parent, o)[i] !in envs
  {
    var _ := WalkUp(parent, envs.Keys, o);
    NearestIsFirstOnChain(parent, envs.Keys, o);
    var n := NearestWith(parent, envs.Keys, o);
    if n.None? {
      return None;
    }
    id := Some(envs[n.value].GetID());
  }
}
