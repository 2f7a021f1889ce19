/** The product record the inventory API returns, and the fixed demonstration data. */
module Catalog {

  /** One product as the list operation returns it. `precio` is in integer cents
      (the page keeps it as a JavaScript number); `rowKey` is the server-issued key. */
  datatype Product = Product(
    rowKey: string,
    nombre: string,
    tipo: string,
    cantidad: int,
    precio: int,
    ubicacion: string)

  /** The two rows `showExampleData` displays when the API cannot be reached. */
  const ExampleProducts: seq<Product> := [
    Product("ej-1", "Laptop HP EliteBook", "Electrónica", 3, 129999, "Estante A"),
    Product("ej-2", "Camiseta Casual", "Ropa", 15, 2499, "Mostrador")
  ]
}
