/** The catalogue record of one AWS service, as every page receives it from the server. */
module Services {
  import opened Basics

  /** One catalogue entry. Colour, icon, link and the status timestamp are display-only and omitted.
      `certificationTracks` and `status` are nullable columns: `None` is a database null. */
  datatype AwsService = AwsService(
    id: nat,
    name: string,
    fullName: string,
    category: string,
    certificationTracks: Option<seq<string>>,
    status: Option<string>)

  /** `services.find(s => s.name === name)`: the first catalogue entry with that name. */
  function FindByName(services: seq<AwsService>, name: string): (r: Option<AwsService>)
    ensures r.Some? ==> r.value in services && r.value.name == name
    ensures r.None? <==> forall s :: s in services ==> s.name != name
    ensures r.Some? ==> exists i :: 0 <= i < |services| && services[i] == r.value &&
                          forall j :: 0 <= j < i ==> services[j].name != name
  {
    if services == [] then None
    else if services[0].name == name then Some(services[0])
    else
      var r := FindByName(services[1..], name);
      if r.Some? then
        var i :| 0 <= i < |services[1..]| && services[1..][i] == r.value &&
                 forall j :: 0 <= j < i ==> services[1..][j].name != name;
        assert services[i + 1] == r.value;
        r
      else r
  }
}
