/** Resource identifiers (EN 50221, section 8.4.1) and the host's registry of them. */
module Resources {
  import opened Basics

  /** The resources this host offers. */
  datatype Kind = ResourceManager | ApplicationInformation | ConditionalAccess | HostControl | DateTime | Mmi

  function Id(kind: Kind): u32 {
    match kind
    case ResourceManager => 0x0001_0041
    case ApplicationInformation => 0x0002_0041
    case ConditionalAccess => 0x0003_0041
    case HostControl => 0x0020_0041
    case DateTime => 0x0024_0041
    case Mmi => 0x0040_0041
  }

  /** Resource class and type, with the version bits masked out. */
  function Base(resourceId: u32): int {
    resourceId / 0x40
  }

  function Version(resourceId: u32): int {
    resourceId % 0x40
  }

  /** The resource with the same class and type, whatever the version. */
  function Lookup(resourceId: u32): Option<Kind> {
    if Base(resourceId) == Base(Id(ResourceManager)) then Some(ResourceManager)
    else if Base(resourceId) == Base(Id(ApplicationInformation)) then Some(ApplicationInformation)
    else if Base(resourceId) == Base(Id(ConditionalAccess)) then Some(ConditionalAccess)
    else if Base(resourceId) == Base(Id(HostControl)) then Some(HostControl)
    else if Base(resourceId) == Base(Id(DateTime)) then Some(DateTime)
    else if Base(resourceId) == Base(Id(Mmi)) then Some(Mmi)
    else None
  }

  /** The resources of the host by their class and type in EN 50221, section 8.8.2; the
      version it offers of each is 1. */
  lemma LookupExact(resourceId: u32)
    ensures Lookup(resourceId) == Some(ResourceManager) <==> 0x0001_0040 <= resourceId < 0x0001_0080
    ensures Lookup(resourceId) == Some(ApplicationInformation) <==> 0x0002_0040 <= resourceId < 0x0002_0080
    ensures Lookup(resourceId) == Some(ConditionalAccess) <==> 0x0003_0040 <= resourceId < 0x0003_0080
    ensures Lookup(resourceId) == Some(HostControl) <==> 0x0020_0040 <= resourceId < 0x0020_0080
    ensures Lookup(resourceId) == Some(DateTime) <==> 0x0024_0040 <= resourceId < 0x0024_0080
    ensures Lookup(resourceId) == Some(Mmi) <==> 0x0040_0040 <= resourceId < 0x0040_0080
    ensures forall kind: Kind :: Lookup(Id(kind)) == Some(kind) && Id(kind) % 0x40 == 1
  {
    InBase(resourceId, 0x401);
    InBase(resourceId, 0x801);
    InBase(resourceId, 0xC01);
    InBase(resourceId, 0x8001);
    InBase(resourceId, 0x9001);
    InBase(resourceId, 0x1_0001);
    assert Base(Id(ResourceManager)) == 0x401 && Base(Id(ApplicationInformation)) == 0x801;
    assert Base(Id(ConditionalAccess)) == 0xC01 && Base(Id(HostControl)) == 0x8001;
    assert Base(Id(DateTime)) == 0x9001 && Base(Id(Mmi)) == 0x1_0001;
    hide Base;
  }

  lemma InBase(resourceId: u32, base: int)
    ensures Base(resourceId) == base <==> 0x40 * base <= resourceId < 0x40 * base + 0x40
  {
  }
}
