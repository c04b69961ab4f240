/**
 The mapper of a CI configuration's external includes: it turns the value of
 the `:include` key into a list of locations and maps each location to an
 external file of the first kind (remote, template, local) that accepts it,
 or to a not-supported file when none does.

 What makes a file kind accept a location (`matching?` of each file class) is
 not part of this model: it is the parameter `matching`, applied to the
 candidate file as the mapper builds it.
 */
module ExternalMapper {

  type Location = string
  type ProjectId = nat
  type Sha = string

  /** The file classes; `NotSupported` is the fallback and is not a candidate. */
  datatype FileKind = Remote | Template | Local | NotSupported

  /** The candidate kinds, in the order they are tried. */
  const FileClasses: seq<FileKind> := [Remote, Template, Local]

  /** The options every file is built with. */
  datatype Options = Options(project: ProjectId, sha: Sha)

  datatype ExternalFile = ExternalFile(kind: FileKind, location: Location, options: Options)

  /** The value stored under `:include`: nil, a single location or a list. */
  datatype IncludeValue = Nil | Single(location: Location) | List(locations: seq<Location>)

  const IncludeKey: string := "include"

  /** The configuration hash, as far as the mapper reads it. */
  type Values = map<string, IncludeValue>

  datatype Mapper = Mapper(locations: seq<Location>, project: ProjectId, sha: Sha)

  /** `Array(values.fetch(:include, []))`: a missing key or nil gives no
      locations, a single location is wrapped into a one-element list, and a list
      is taken as it is. */
  function Locations(values: Values): (r: seq<Location>)
    ensures IncludeKey !in values ==> r == []
    ensures IncludeKey in values && values[IncludeKey].Nil? ==> r == []
    ensures IncludeKey in values && values[IncludeKey].Single? ==> r == [values[IncludeKey].location]
    ensures IncludeKey in values && values[IncludeKey].List? ==> r == values[IncludeKey].locations
  {
    if IncludeKey !in values then []
    else
      match values[IncludeKey]
      case Nil => []
      case Single(location) => [location]
      case List(locations) => locations
  }

  /** `Mapper.new(values, project, sha)`. */
  function NewMapper(values: Values, project: ProjectId, sha: Sha): (m: Mapper)
    ensures m.locations == Locations(values)
    ensures m.project == project && m.sha == sha
  {
    Mapper(Locations(values), project, sha)
  }

  /** The file chosen for one location, with every candidate that was built on
      the way, in order. */
  datatype Built = Built(file: ExternalFile, candidates: seq<ExternalFile>)

  /** The first-match search of `build_external_file` over `classes`: each kind in
      turn is built with the location and the options and asked `matching?`;
      the first that matches is returned at once, and when none does the result
      is a not-supported file. */
  function FirstMatch(classes: seq<FileKind>, location: Location, options: Options,
                      matching: ExternalFile -> bool): (r: Built)
    requires NotSupported !in classes
    ensures r.file.location == location && r.file.options == options
    ensures |r.candidates| <= |classes|
    ensures forall i :: 0 <= i < |r.candidates| ==>
              r.candidates[i] == ExternalFile(classes[i], location, options)
    ensures forall i :: 0 <= i < |r.candidates| - 1 ==> !matching(r.candidates[i])
    ensures r.file.kind != NotSupported ==>
              r.candidates != [] && r.file == r.candidates[|r.candidates| - 1] && matching(r.file)
    ensures r.file.kind == NotSupported ==>
              |r.candidates| == |classes| && forall i :: 0 <= i < |classes| ==> !matching(r.candidates[i])
  {
    if classes == [] then
      Built(ExternalFile(NotSupported, location, options), [])
    else
      var candidate := ExternalFile(classes[0], location, options);
      if matching(candidate) then
        Built(candidate, [candidate])
      else
        var rest := FirstMatch(classes[1..], location, options, matching);
        Built(rest.file, [candidate] + rest.candidates)
  }

  /** `build_external_file`: the first-match search over the file classes, with
      the mapper's project and sha as options. */
  function BuildExternalFile(m: Mapper, location: Location, matching: ExternalFile -> bool): (r: Built)
    ensures r.file.location == location && r.file.options == Options(m.project, m.sha)
    ensures r.file.kind != NotSupported ==> matching(r.file)
    ensures r.file.kind == NotSupported <==>
              forall k :: k in FileClasses ==> !matching(ExternalFile(k, location, Options(m.project, m.sha)))
    ensures forall c :: c in r.candidates ==> c.location == location && c.options == Options(m.project, m.sha)
    ensures var k := FirstMatchingIndex(FileClasses, location, Options(m.project, m.sha), matching);
            r.file.kind == if k < |FileClasses| then FileClasses[k] else NotSupported
  {
    var r := FirstMatch(FileClasses, location, Options(m.project, m.sha), matching);
    FirstMatchIsFirst(FileClasses, location, Options(m.project, m.sha), matching);
    assert r.file.kind != NotSupported ==> r.file.kind in FileClasses by {
      if r.file.kind != NotSupported {
        assert r.file == r.candidates[|r.candidates| - 1];
      }
    }
    r
  }

  /** The file for each location, in order (the `map` of `process`). */
  function ProcessLocations(m: Mapper, locations: seq<Location>, matching: ExternalFile -> bool)
    : (r: seq<ExternalFile>)
    ensures |r| == |locations|
    ensures forall i :: 0 <= i < |locations| ==> r[i] == BuildExternalFile(m, locations[i], matching).file
  {
    if locations == [] then []
    else [BuildExternalFile(m, locations[0], matching).file] + ProcessLocations(m, locations[1..], matching)
  }

  /** `process`: one file per location of the mapper, in the order of the
      locations, each with the mapper's options. */
  function Process(m: Mapper, matching: ExternalFile -> bool): (r: seq<ExternalFile>)
    ensures |r| == |m.locations|
    ensures forall i :: 0 <= i < |r| ==>
              r[i].location == m.locations[i] && r[i].options == Options(m.project, m.sha)
    ensures forall i :: 0 <= i < |r| ==> r[i] == BuildExternalFile(m, m.locations[i], matching).file
  {
    ProcessLocations(m, m.locations, matching)
  }

  /** The index of the first kind in `classes` that matches, or `|classes|`. */
  function FirstMatchingIndex(classes: seq<FileKind>, location: Location, options: Options,
                              matching: ExternalFile -> bool): (i: nat)
    ensures i <= |classes|
    ensures i < |classes| ==> matching(ExternalFile(classes[i], location, options))
    ensures forall j :: 0 <= j < i ==> !matching(ExternalFile(classes[j], location, options))
  {
    if classes == [] then 0
    else if matching(ExternalFile(classes[0], location, options)) then 0
    else 1 + FirstMatchingIndex(classes[1..], location, options, matching)
  }

  /** The search agrees with the reference definition of "first match": it picks
      the kind at the first matching index and builds exactly the candidates up to
      and including it, so later kinds are never consulted. */
  lemma FirstMatchIsFirst(classes: seq<FileKind>, location: Location, options: Options,
                          matching: ExternalFile -> bool)
    requires NotSupported !in classes
    ensures var i := FirstMatchingIndex(classes, location, options, matching);
            var r := FirstMatch(classes, location, options, matching);
            (i < |classes| ==> r.file.kind == classes[i] && |r.candidates| == i + 1)
            && (i == |classes| ==> r.file.kind == NotSupported && |r.candidates| == |classes|)
  {
  }

  /** Without an `:include` key there is nothing to process. */
  lemma NoIncludeProcessesNothing(values: Values, project: ProjectId, sha: Sha,
                                  matching: ExternalFile -> bool)
    requires IncludeKey !in values
    ensures Process(NewMapper(values, project, sha), matching) == []
  {
  }

  /** A single include is processed into exactly one file, for that location. */
  lemma SingleIncludeProcessesOne(values: Values, project: ProjectId, sha: Sha,
                                  matching: ExternalFile -> bool)
    requires IncludeKey in values && values[IncludeKey].Single?
    ensures var r := Process(NewMapper(values, project, sha), matching);
            |r| == 1 && r[0].location == values[IncludeKey].location
  {
  }

  /** Processing is done location by location: the files of two lists of
      locations are the files of each list, concatenated. */
  lemma ProcessLocationsAppend(m: Mapper, a: seq<Location>, b: seq<Location>,
                               matching: ExternalFile -> bool)
    ensures ProcessLocations(m, a + b, matching)
            == ProcessLocations(m, a, matching) + ProcessLocations(m, b, matching)
  {
  }
}
