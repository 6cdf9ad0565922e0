/** The configuration of one mirror: its name and its other options. An option
    that is not set has the empty value. */
module MirrorConf {
  import opened Bytes

  datatype MirrorConfig = MirrorConfig(name: Bytes, settings: map<Bytes, Bytes>)

  ghost predicate HasName(l: seq<MirrorConfig>, name: Bytes) {
    exists c :: c in l && c.name == name
  }

  /** No two entries of the list share a name. */
  ghost predicate UniqueNames(l: seq<MirrorConfig>) {
    forall i, j :: 0 <= i < j < |l| ==> l[i].name != l[j].name
  }
}
