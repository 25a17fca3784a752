/** The two naming functions every cloud object of a cluster is looked up and created under. */
module Naming {

  /** The part of a tenant cluster object that its resource names are derived from. */
  datatype Meta = Meta(name: string, uid: string, useUid: bool)

  const CONTROL_PLANE_USE := "controlplane"

  function ResourceName(meta: Meta): string {
    if meta.useUid then meta.uid else meta.name
  }

  function ResourceNameWithUse(meta: Meta, use: string): string {
    if meta.useUid then meta.uid + "-" + use else meta.name + "-" + use
  }

  lemma SuffixIsInjective(x: string, y: string, z: string)
    ensures x + z == y + z <==> x == y
  {
    if x + z == y + z {
      assert |x + z| == |y + z|;
      assert x == (x + z)[..|x|];
      assert y == (y + z)[..|y|];
    }
  }

  /** The vApp names of two clusters differ exactly when their load balancer names do. */
  lemma NamesDifferTogether(a: Meta, b: Meta, use: string)
    ensures ResourceName(a) == ResourceName(b) <==> ResourceNameWithUse(a, use) == ResourceNameWithUse(b, use)
  {
    SuffixIsInjective(ResourceName(a), ResourceName(b), "-" + use);
    assert ResourceNameWithUse(a, use) == ResourceName(a) + ("-" + use);
    assert ResourceNameWithUse(b, use) == ResourceName(b) + ("-" + use);
  }

  /** With UID naming on both clusters, distinct UIDs give distinct names of both sorts. */
  lemma UidNamesAreInjective(a: Meta, b: Meta, use: string)
    requires a.useUid && b.useUid
    ensures ResourceName(a) == ResourceName(b) <==> a.uid == b.uid
    ensures ResourceNameWithUse(a, use) == ResourceNameWithUse(b, use) <==> a.uid == b.uid
  {
    NamesDifferTogether(a, b, use);
  }
}
