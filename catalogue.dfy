/** The item records served by `/api/items`, which both invoice forms and the
    item list read. */
module Catalogue {

  datatype Item = Item(
    id: string,
    name: string,
    hsnCode: string,
    buyingPrice: real,
    sellingPrice: real,
    gstRate: real,
    stock: int)
}
