/** Directory lookups over the reference data: the first user or property with a given id. */
module Lookup {
  import opened Options
  import opened Types
  import opened Seed
  import Sequences

  /** `getUserById`: the first entry of the user list whose id is `id`, or `None` when no
      user has that id. */
  function GetUserById(id: int): (r: Option<User>)
    ensures r.None? <==> forall i :: 0 <= i < |Users| ==> Users[i].id != id
    ensures r.Some? ==> exists i :: 0 <= i < |Users| && Users[i] == r.value && r.value.id == id
                          && forall j :: 0 <= j < i ==> Users[j].id != id
  {
    Sequences.FindFirst(Users, (u: User) => u.id == id)
  }

  /** `getPropertyById`: the first entry of the property list whose id is `id`, or `None`. */
  function GetPropertyById(id: int): (r: Option<Property>)
    ensures r.None? <==> forall i :: 0 <= i < |Properties| ==> Properties[i].id != id
    ensures r.Some? ==> exists i :: 0 <= i < |Properties| && Properties[i] == r.value && r.value.id == id
                          && forall j :: 0 <= j < i ==> Properties[j].id != id
  {
    Sequences.FindFirst(Properties, (p: Property) => p.id == id)
  }

  /** Over the seed directory exactly the ids 1 to 8 resolve to users, user `id` being the
      `id`-th entry. */
  lemma UserLookups(id: int)
    ensures GetUserById(id).Some? <==> 1 <= id <= 8
    ensures 1 <= id <= 8 ==> GetUserById(id) == Some(Users[id - 1])
  {
    SeedUsers();
  }

  /** Over the seed directory exactly the ids 101 to 103 resolve to properties, in list order. */
  lemma PropertyLookups(id: int)
    ensures GetPropertyById(id).Some? <==> 101 <= id <= 103
    ensures 101 <= id <= 103 ==> GetPropertyById(id) == Some(Properties[id - 101])
  {
    SeedProperties();
  }
}
