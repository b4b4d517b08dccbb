/** The SDK's table from a Camunda product to the JWT credentials used to
    authenticate against it. */
module JwtAuth {
  import opened Wrappers

  /** The product-to-credential table, `map` in the source. */
  class JwtConfig<Product(==,!new), JwtCredential> {
    var credentials: map<Product, JwtCredential>

    /** A new configuration holds no products. */
    constructor ()
      ensures credentials == map[]
      ensures forall p :: GetProduct(p) == None
    {
      credentials := map[];
    }

    /** Set the credential of `product`, replacing any earlier one and
        leaving every other product's credential as it was. */
    method AddProduct(product: Product, jwtCredential: JwtCredential)
      modifies this
      ensures credentials == old(credentials)[product := jwtCredential]
      ensures GetProduct(product) == Some(jwtCredential)
      ensures forall p :: p != product ==> GetProduct(p) == old(GetProduct(p))
    {
      credentials := credentials[product := jwtCredential];
    }

    /** The credential of `product`, or none (null) when it was never added. */
    function GetProduct(product: Product): (r: Option<JwtCredential>)
      reads this
      ensures r.Some? <==> product in credentials
      ensures r.Some? ==> r.value == credentials[product]
    {
      if product in credentials then Some(credentials[product]) else None
    }

    /** `getMap`: the whole table. */
    function GetMap(): (m: map<Product, JwtCredential>)
      reads this
      ensures forall p :: p in m <==> GetProduct(p).Some?
      ensures forall p :: p in m ==> GetProduct(p) == Some(m[p])
    {
      credentials
    }
  }
}
