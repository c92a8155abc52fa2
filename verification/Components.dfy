/** The component and bill-of-materials records of internal/kicad/bom.go. */
module Components {

  datatype Component = Component(
    reference: string, value: string, footprint: string, libID: string, mpn: string,
    manufacturer: string, supplierSKU: string, ipn: string, description: string)

  datatype BOMLine = BOMLine(
    refs: seq<string>, quantity: nat, value: string, footprint: string, libID: string, mpn: string,
    manufacturer: string, supplierSKU: string, ipn: string, description: string)
}
