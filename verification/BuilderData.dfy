/** What the builder's registers are: where each is available and of which type. */
module BuilderData {
  import opened Cir
  import opened Arith
  import opened Fold
  import opened Labels

  /** `avail` gives, for every label whose block may be jumped to, registers defined on every path
      to it; `here` those available at the point of emission; `slots` the allocas of the entry block.
      `clean` says that the source's names cannot collide with the builder's; then `types`
      gives every register's type. */
  datatype Data = Data(params: set<Name>, avail: map<Label, set<Name>>, here: set<Name>, slots: set<Name>,
      types: map<Name, Ty>, clean: bool)

  ghost predicate Extends(d: Data, d': Data) {
    && d'.params == d.params && d'.clean == d.clean && d.slots <= d'.slots
    && (forall l :: l in d.avail ==> l in d'.avail && d'.avail[l] == d.avail[l])
    && (d.clean ==> forall r :: r in d.types ==> r in d'.types && d'.types[r] == d.types[r])
  }

  ghost predicate TypedReg(d: Data, r: Name, ty: Ty) {
    d.clean ==> r in d.types && d.types[r] == ty
  }

  /** An operand whose register is defined here. */
  ghost predicate Usable(d: Data, x: Operand) {
    PlainConst(x) && (x.Reg? ==> (x.name in d.here || x.name in d.slots) && TypedReg(d, x.name, x.ty))
  }

  /** Where everything promised at `l` is defined. */
  ghost predicate MayGo(d: Data, l: Label) {
    l in d.avail && d.avail[l] <= d.here
  }

  ghost function Announced(d: Data, ls: set<Label>): Data {
    d.(avail := d.avail + map l | l in ls :: d.here)
  }

  lemma ExtendsJoins(d: Data, d1: Data, d2: Data)
    requires Extends(d, d1) && Extends(d1, d2)
    ensures Extends(d, d2)
  {}

  lemma StaysUsable(d: Data, d': Data, x: Operand)
    requires Extends(d, d') && d.here <= d'.here && Usable(d, x)
    ensures Usable(d', x)
  {}

  lemma StaysGo(d: Data, d': Data, l: Label)
    requires Extends(d, d') && d.here <= d'.here && MayGo(d, l)
    ensures MayGo(d', l)
  {}
}
